/** The JsLogger static class: LogInternal decorates a message with Unity
    rich-text spans in a shared StringBuilder and routes the result to one of
    Unity's five Debug channels; the public Log* families only supply a
    default colour and a fixed LogType.

    Collaborators the logger cannot see (ColorTools.GetHexColor, the rendering
    of a StringConstructor, EnumExtensions.FromInt<Color>) are arrow-typed
    constants of the logger object, so every result holds for any choice of
    them. Unity's Debug sinks are recorded as a ghost trace of calls. */
module JsDebug {
  import opened Markup

  datatype Option<T> = None | Some(value: T)

  datatype Result<T> = Ok(value: T) | Err(fault: Fault)

  /** The named colours of the colour library that the logger mentions.
      OtherColor stands for the rest of the palette and for any other integer
      the enum type can hold; its code is never that of one of the six named
      members, which are always written by name. A colorFromInt that returned
      OtherColor with a named member's code would only add behaviours, so
      every property below still holds. */
  datatype Color = White | Yellow | Red | Green | Magenta | Blue | OtherColor(code: int)

  /** Unity's LogType. Undefined stands for any integer held by the enum
      type that is none of its five members (Error 0, Assert 1, Warning 2,
      Log 3, Exception 4), so its code is never 0 to 4: a member is always
      written by name. */
  datatype LogType = Error | Assert | Warning | Log | Exception | Undefined(code: int)

  /** The message as the logger receives it: built from one string or from a
      list of fragments. How it renders is up to the string library. */
  datatype StringConstructor = FromString(text: string) | FromStrings(parts: seq<string>)

  /** A System.Exception, only as the carrier of its message. */
  datatype ExceptionObject = ExceptionObject(message: string)

  /** One call into Unity's Debug class. */
  datatype SinkCall =
    | DebugLog(message: string)
    | DebugLogWarning(message: string)
    | DebugLogError(message: string)
    | DebugLogAssertion(message: string)
    | DebugLogException(exception: ExceptionObject)

  /** What a logging call can throw: ArgumentOutOfRangeException for a LogType
      outside the five members, or whatever FromInt<Color> throws for an
      integer it does not accept. */
  datatype Fault = ArgumentOutOfRange | ColorConversionFailed(code: int)

  /** The channel a sink call was made on. */
  function ChannelOf(call: SinkCall): LogType {
    match call
    case DebugLog(_) => LogType.Log
    case DebugLogWarning(_) => Warning
    case DebugLogError(_) => Error
    case DebugLogAssertion(_) => Assert
    case DebugLogException(_) => Exception
  }

  /** The text a sink call carries; for an exception, its message. */
  function MessageOf(call: SinkCall): string {
    match call
    case DebugLogException(e) => e.message
    case _ => call.message
  }

  // ---------------------------------------------------------------------
  // Formatting

  /** The spans LogInternal opens, outermost first. */
  function ActiveTags(color: Color, hexCode: string, bold: bool, italic: bool): seq<Tag> {
    Optional(color != White, ColorTag(hexCode)) + Optional(bold, Bold) + Optional(italic, Italic)
  }

  /** A colour span is opened exactly when the colour is not White, bold and
      italic exactly when requested, nothing else, and in the order colour,
      bold, italic from outermost to innermost. */
  lemma ActiveTagsNesting(color: Color, hexCode: string, bold: bool, italic: bool)
    ensures var tags := ActiveTags(color, hexCode, bold, italic);
      forall i, j :: 0 <= i < j < |tags| ==> Rank(tags[i]) < Rank(tags[j])
    ensures ColorTag(hexCode) in ActiveTags(color, hexCode, bold, italic) <==> color != White
    ensures Bold in ActiveTags(color, hexCode, bold, italic) <==> bold
    ensures Italic in ActiveTags(color, hexCode, bold, italic) <==> italic
    ensures forall t :: t in ActiveTags(color, hexCode, bold, italic) ==> t == ColorTag(hexCode) || t == Bold || t == Italic
  {
    var c, b, i := Optional(color != White, ColorTag(hexCode)), Optional(bold, Bold), Optional(italic, Italic);
    var tags := c + b + i;
    assert forall k :: 0 <= k < |c| ==> c[k] == ColorTag(hexCode);
    assert forall k :: |c| <= k < |c| + |b| ==> tags[k] == Bold;
    assert forall k :: |c| + |b| <= k < |tags| ==> tags[k] == Italic;
  }

  /** The finished message: the body inside the active spans, properly
      nested, then one line break when separateEachStringWithNewLine holds. */
  function Decorate(color: Color, hexCode: string, bold: bool, italic: bool, body: string, separate: bool): string {
    Wrap(ActiveTags(color, hexCode, bold, italic), body) + (if separate then "\n" else "")
  }

  lemma OpeningText(color: Color, hexCode: string, bold: bool, italic: bool)
    ensures OpenAll(ActiveTags(color, hexCode, bold, italic)) ==
      (if color != White then "<color=#" + hexCode + ">" else "")
      + (if bold then "<b>" else "") + (if italic then "<i>" else "")
  {
    var c, b, i := Optional(color != White, ColorTag(hexCode)), Optional(bold, Bold), Optional(italic, Italic);
    OpenAllThree(c, b, i);
    OptionalText(color != White, ColorTag(hexCode));
    OptionalText(bold, Bold);
    OptionalText(italic, Italic);
  }

  lemma ClosingText(color: Color, hexCode: string, bold: bool, italic: bool)
    ensures CloseAll(Reverse(ActiveTags(color, hexCode, bold, italic))) ==
      (if italic then "</i>" else "") + (if bold then "</b>" else "")
      + (if color != White then "</color>" else "")
  {
    var c, b, i := Optional(color != White, ColorTag(hexCode)), Optional(bold, Bold), Optional(italic, Italic);
    ReverseThree(c, b, i);
    OptionalText(color != White, ColorTag(hexCode));
    OptionalText(bold, Bold);
    OptionalText(italic, Italic);
    CloseAllThree(i, b, c);
  }

  /** The nested message is exactly the text LogInternal appends step by
      step: colour, bold and italic openers, the body, then the closers in
      the reverse order, then the optional line break. */
  lemma DecorateSpelledOut(color: Color, hexCode: string, bold: bool, italic: bool, body: string, separate: bool)
    ensures Decorate(color, hexCode, bold, italic, body, separate) ==
      (if color != White then "<color=#" + hexCode + ">" else "")
      + (if bold then "<b>" else "")
      + (if italic then "<i>" else "")
      + body
      + (if italic then "</i>" else "")
      + (if bold then "</b>" else "")
      + (if color != White then "</color>" else "")
      + (if separate then "\n" else "")
  {
    var tags := ActiveTags(color, hexCode, bold, italic);
    var opening := (if color != White then "<color=#" + hexCode + ">" else "")
      + (if bold then "<b>" else "") + (if italic then "<i>" else "");
    var closeItalic := if italic then "</i>" else "";
    var closeBold := if bold then "</b>" else "";
    var closeColor := if color != White then "</color>" else "";
    var newline := if separate then "\n" else "";
    assert Decorate(color, hexCode, bold, italic, body, separate)
        == OpenAll(tags) + body + CloseAll(Reverse(tags)) + newline by {
      DecorateClosesInReverse(color, hexCode, bold, italic, body, separate);
    }
    assert OpenAll(tags) == opening by {
      OpeningText(color, hexCode, bold, italic);
    }
    assert CloseAll(Reverse(tags)) == closeItalic + closeBold + closeColor by {
      ClosingText(color, hexCode, bold, italic);
    }
    AppendThree(opening + body, closeItalic, closeBold, closeColor);
  }

  /** Opening tags are closed in the reverse order of their opening. */
  lemma DecorateClosesInReverse(color: Color, hexCode: string, bold: bool, italic: bool, body: string, separate: bool)
    ensures var tags := ActiveTags(color, hexCode, bold, italic);
      Decorate(color, hexCode, bold, italic, body, separate) ==
        OpenAll(tags) + body + CloseAll(Reverse(tags)) + (if separate then "\n" else "")
  {
    WrapFlattens(ActiveTags(color, hexCode, bold, italic), body);
  }

  /** With White no colour span is produced, so the colour's hex code has no
      influence; with nothing requested the body goes through untouched. */
  lemma WhiteHasNoColorSpan(hexCode: string, otherHexCode: string, bold: bool, italic: bool, body: string, separate: bool)
    ensures forall t :: t in ActiveTags(White, hexCode, bold, italic) ==> !t.ColorTag?
    ensures Decorate(White, hexCode, bold, italic, body, separate)
         == Decorate(White, otherHexCode, bold, italic, body, separate)
    ensures Decorate(White, hexCode, false, false, body, false) == body
  {
    assert ActiveTags(White, hexCode, bold, italic) == ActiveTags(White, otherHexCode, bold, italic);
    assert ActiveTags(White, hexCode, false, false) == [];
  }

  lemma ActiveTagsHexNewlines(color: Color, hexCode: string, bold: bool, italic: bool)
    ensures HexNewlines(ActiveTags(color, hexCode, bold, italic)) == (if color != White then Count('\n', hexCode) else 0)
  {
    var c, b, i := Optional(color != White, ColorTag(hexCode)), Optional(bold, Bold), Optional(italic, Italic);
    assert ActiveTags(color, hexCode, bold, italic) == c + (b + i);
    HexNewlinesAppend(c, b + i);
    HexNewlinesAppend(b, i);
  }

  /** The spans add no line break of their own; separateEachStringWithNewLine
      adds exactly one. */
  lemma DecorateNewlines(color: Color, hexCode: string, bold: bool, italic: bool, body: string, separate: bool)
    ensures Count('\n', Decorate(color, hexCode, bold, italic, body, separate))
         == Count('\n', body) + (if color != White then Count('\n', hexCode) else 0) + (if separate then 1 else 0)
  {
    var tags := ActiveTags(color, hexCode, bold, italic);
    var newline := if separate then "\n" else "";
    assert Count('\n', Decorate(color, hexCode, bold, italic, body, separate))
        == Count('\n', Wrap(tags, body)) + Count('\n', newline) by {
      CountAppend('\n', Wrap(tags, body), newline);
    }
    assert Count('\n', newline) == (if separate then 1 else 0);
    WrapNewlines(tags, body);
    ActiveTagsHexNewlines(color, hexCode, bold, italic);
  }

  /** The line break of separateEachStringWithNewLine comes after every
      closing tag. */
  lemma SeparateAppendsLastNewline(color: Color, hexCode: string, bold: bool, italic: bool, body: string)
    ensures Decorate(color, hexCode, bold, italic, body, true)
         == Decorate(color, hexCode, bold, italic, body, false) + "\n"
  {
    var wrapped := Wrap(ActiveTags(color, hexCode, bold, italic), body);
    assert wrapped + "" == wrapped;
  }

  // ---------------------------------------------------------------------
  // Dispatch

  /** The sink call LogInternal makes for a LogType, or None where it throws
      ArgumentOutOfRangeException instead. */
  function Dispatch(logType: LogType, text: string): (call: Option<SinkCall>)
    ensures call.None? <==> logType.Undefined?
    ensures call.Some? ==> ChannelOf(call.value) == logType && MessageOf(call.value) == text
  {
    match logType
    case Log => Some(DebugLog(text))
    case Warning => Some(DebugLogWarning(text))
    case Error => Some(DebugLogError(text))
    case Assert => Some(DebugLogAssertion(text))
    case Exception => Some(DebugLogException(ExceptionObject(text)))
    case Undefined(_) => None
  }

  /** Distinct channels or distinct texts never yield the same sink call. */
  lemma DispatchInjective(t1: LogType, s1: string, t2: LogType, s2: string)
    requires Dispatch(t1, s1).Some? && Dispatch(t1, s1) == Dispatch(t2, s2)
    ensures t1 == t2 && s1 == s2
  {
    var call := Dispatch(t1, s1).value;
    assert ChannelOf(call) == t1 && MessageOf(call) == s1;
  }

  // ---------------------------------------------------------------------
  // The public overload families

  /** The six public call families. */
  datatype Family = LogFamily | LogWarningFamily | LogErrorFamily | LogSuccessFamily | LogAssertionFamily | LogExceptionFamily

  /** The default of each family's colour parameter. */
  function DefaultColor(family: Family): Color {
    match family
    case LogFamily => White
    case LogWarningFamily => Yellow
    case LogErrorFamily => Red
    case LogSuccessFamily => Green
    case LogAssertionFamily => Magenta
    case LogExceptionFamily => Blue
  }

  /** The LogType each family passes to LogInternal. */
  function Channel(family: Family): LogType {
    match family
    case LogFamily => LogType.Log
    case LogWarningFamily => Warning
    case LogErrorFamily => Error
    case LogSuccessFamily => LogType.Log
    case LogAssertionFamily => Assert
    case LogExceptionFamily => Exception
  }

  /** The shapes of the public overloads, arguments in declared order. An
      optional parameter is None when the caller leaves it out. For
      StyledFragments the second and third flags are italic and
      separateEachStringWithNewLine, except for LogException, which declares
      them the other way round. */
  datatype Overload =
    | ConstructorMessage(message: StringConstructor, color: Option<Color>, bold: Option<bool>, italic: Option<bool>)
    | StringMessage(text: string, color: Option<Color>, bold: Option<bool>, italic: Option<bool>)
    | StyledFragments(color: Option<Color>, bold: Option<bool>, second: Option<bool>, third: Option<bool>, messages: seq<string>)
    | SeparatedFragments(separate: Option<bool>, messages: seq<string>)
    | Fragments(messages: seq<string>)
    | ColorCodeFragments(code: int, bold: Option<bool>, italic: Option<bool>, separate: Option<bool>, messages: seq<string>)

  /** Which shapes each family declares: Log has no StringConstructor
      overload and LogSuccess has no overload taking only the fragments. */
  predicate Declares(family: Family, call: Overload) {
    match call
    case ConstructorMessage(_, _, _, _) => family != LogFamily
    case Fragments(_) => family != LogSuccessFamily
    case _ => true
  }

  /** The arguments a public overload hands on to LogInternal. */
  datatype Request = Request(message: StringConstructor, logType: LogType, color: Color, bold: bool, italic: bool, separate: bool)

  function OrElse<T>(arg: Option<T>, fallback: T): T {
    match arg
    case Some(v) => v
    case None => fallback
  }

  /** How a public overload fills in its defaults and forwards to
      LogInternal. FromInt<Color> is evaluated before LogInternal is entered,
      so its failure leaves the logger untouched. */
  function Forward(family: Family, call: Overload, colorFromInt: int -> Option<Color>): (r: Result<Request>)
    requires Declares(family, call)
    ensures r.Err? <==> call.ColorCodeFragments? && colorFromInt(call.code).None?
    ensures r.Err? ==> r.fault == ColorConversionFailed(call.code)
    ensures r.Ok? ==> r.value.logType == Channel(family) && !r.value.logType.Undefined?
    ensures r.Ok? && (call.ConstructorMessage? || call.StringMessage? || call.Fragments?) ==> !r.value.separate
    ensures r.Ok? && (call.SeparatedFragments? || call.Fragments?) ==>
      r.value.color == DefaultColor(family) && !r.value.bold && !r.value.italic
    ensures r.Ok? && (call.ConstructorMessage? || call.StringMessage? || call.StyledFragments?) ==>
      r.value.color == OrElse(call.color, DefaultColor(family)) && r.value.bold == OrElse(call.bold, false)
    ensures r.Ok? && (call.ConstructorMessage? || call.StringMessage?) ==> r.value.italic == OrElse(call.italic, false)
    ensures r.Ok? && call.StyledFragments? && family == LogExceptionFamily ==>
      r.value.separate == OrElse(call.second, false) && r.value.italic == OrElse(call.third, false)
    ensures r.Ok? && call.StyledFragments? && family != LogExceptionFamily ==>
      r.value.italic == OrElse(call.second, false) && r.value.separate == OrElse(call.third, false)
    ensures r.Ok? && call.SeparatedFragments? ==> r.value.separate == OrElse(call.separate, false)
    ensures r.Ok? && call.ColorCodeFragments? ==>
      r.value.color == colorFromInt(call.code).value && r.value.bold == OrElse(call.bold, false) &&
      r.value.italic == OrElse(call.italic, false) && r.value.separate == OrElse(call.separate, false)
    ensures r.Ok? && call.StringMessage? ==> r.value.message == FromString(call.text)
    ensures r.Ok? && call.ConstructorMessage? ==> r.value.message == call.message
    ensures r.Ok? && !call.ConstructorMessage? && !call.StringMessage? ==> r.value.message == FromStrings(call.messages)
  {
    var channel := Channel(family);
    match call
    case ConstructorMessage(message, color, bold, italic) =>
      Ok(Request(message, channel, OrElse(color, DefaultColor(family)), OrElse(bold, false), OrElse(italic, false), false))
    case StringMessage(text, color, bold, italic) =>
      Ok(Request(FromString(text), channel, OrElse(color, DefaultColor(family)), OrElse(bold, false), OrElse(italic, false), false))
    case StyledFragments(color, bold, second, third, messages) =>
      var italic := if family == LogExceptionFamily then third else second;
      var separate := if family == LogExceptionFamily then second else third;
      Ok(Request(FromStrings(messages), channel, OrElse(color, DefaultColor(family)),
                 OrElse(bold, false), OrElse(italic, false), OrElse(separate, false)))
    case SeparatedFragments(separate, messages) =>
      Ok(Request(FromStrings(messages), channel, DefaultColor(family), false, false, OrElse(separate, false)))
    case Fragments(messages) =>
      Ok(Request(FromStrings(messages), channel, DefaultColor(family), false, false, false))
    case ColorCodeFragments(code, bold, italic, separate, messages) =>
      match colorFromInt(code)
      case None => Err(ColorConversionFailed(code))
      case Some(color) =>
        Ok(Request(FromStrings(messages), channel, color, OrElse(bold, false), OrElse(italic, false), OrElse(separate, false)))
  }

  /** The fixed table of defaults: each family's colour and channel. Only Log
      and LogSuccess share a channel, and no two families share a default
      colour. */
  lemma FamilyTable(f: Family, g: Family)
    ensures f == LogFamily ==> DefaultColor(f) == White && Channel(f) == LogType.Log
    ensures f == LogWarningFamily ==> DefaultColor(f) == Yellow && Channel(f) == Warning
    ensures f == LogErrorFamily ==> DefaultColor(f) == Red && Channel(f) == Error
    ensures f == LogSuccessFamily ==> DefaultColor(f) == Green && Channel(f) == LogType.Log
    ensures f == LogAssertionFamily ==> DefaultColor(f) == Magenta && Channel(f) == Assert
    ensures f == LogExceptionFamily ==> DefaultColor(f) == Blue && Channel(f) == Exception
    ensures DefaultColor(f) == DefaultColor(g) <==> f == g
    ensures Channel(f) == Channel(g) <==> f == g || {f, g} == {LogFamily, LogSuccessFamily}
  {
  }

  /** The styled-fragments overload of LogException binds its second flag to
      separateEachStringWithNewLine and its third to italic, while every
      other family binds them the other way round; bold is always first, and
      the colour is the caller's, or the family's default when omitted. */
  lemma StyledFragmentsBinding(family: Family, color: Option<Color>, bold: Option<bool>, second: Option<bool>,
                               third: Option<bool>, messages: seq<string>, colorFromInt: int -> Option<Color>)
    ensures var r := Forward(family, StyledFragments(color, bold, second, third, messages), colorFromInt).value;
      r.color == OrElse(color, DefaultColor(family)) && r.bold == OrElse(bold, false) &&
      (family == LogExceptionFamily ==> r.separate == OrElse(second, false) && r.italic == OrElse(third, false)) &&
      (family != LogExceptionFamily ==> r.italic == OrElse(second, false) && r.separate == OrElse(third, false))
  {
  }

  /** A call that gives only its message forwards exactly the family's
      defaults: its default colour, its channel, no bold, no italic and no
      separation (so LogWarning("x") logs "x" in Yellow on the Warning
      channel). */
  lemma OmittedArgumentsTakeDefaults(family: Family, text: string, message: StringConstructor,
                                     messages: seq<string>, colorFromInt: int -> Option<Color>)
    ensures Forward(family, StringMessage(text, None, None, None), colorFromInt)
      == Ok(Request(FromString(text), Channel(family), DefaultColor(family), false, false, false))
    ensures family != LogFamily ==>
      Forward(family, ConstructorMessage(message, None, None, None), colorFromInt)
        == Ok(Request(message, Channel(family), DefaultColor(family), false, false, false))
    ensures Forward(family, StyledFragments(None, None, None, None, messages), colorFromInt)
      == Ok(Request(FromStrings(messages), Channel(family), DefaultColor(family), false, false, false))
    ensures Forward(family, SeparatedFragments(None, messages), colorFromInt)
      == Ok(Request(FromStrings(messages), Channel(family), DefaultColor(family), false, false, false))
    ensures family != LogSuccessFamily ==>
      Forward(family, Fragments(messages), colorFromInt)
        == Ok(Request(FromStrings(messages), Channel(family), DefaultColor(family), false, false, false))
  {
  }

  // ---------------------------------------------------------------------
  // The logger's shared state

  class JsLogger {
    /** The shared StringBuilder, as the text it holds. */
    var builder: string
    /** Every call made into Unity's Debug class so far, oldest first. */
    ghost var sunk: seq<SinkCall>
    /** ColorTools.GetHexColor. */
    const hex: Color -> string
    /** The text a StringConstructor appends to a StringBuilder. */
    const render: StringConstructor -> string
    /** EnumExtensions.FromInt<Color>; None where it throws. */
    const colorFromInt: int -> Option<Color>

    constructor (hex: Color -> string, render: StringConstructor -> string, colorFromInt: int -> Option<Color>)
      ensures this.hex == hex && this.render == render && this.colorFromInt == colorFromInt
      ensures builder == [] && sunk == []
    {
      this.hex := hex;
      this.render := render;
      this.colorFromInt := colorFromInt;
      builder := [];
      sunk := [];
    }

    /** The state one LogInternal call leaves: the builder holds the
        decorated message, and either exactly one sink call carrying it was
        added on the LogType's channel, or ArgumentOutOfRangeException was
        thrown and no sink call was made. */
    ghost predicate Emitted(before: seq<SinkCall>, message: StringConstructor, logType: LogType, color: Color,
                            bold: bool, italic: bool, separate: bool, thrown: Option<Fault>)
      reads this
    {
      builder == Decorate(color, hex(color), bold, italic, render(message), separate) &&
      (logType.Undefined? ==> thrown == Some(ArgumentOutOfRange) && sunk == before) &&
      (!logType.Undefined? ==> thrown == None && sunk == before + [Dispatch(logType, builder).value])
    }

    /** The opening half of LogInternal's markup: a colour span unless the
        colour is White, then bold, then italic. */
    method AppendOpeningTags(color: Color, hexColor: string, bold: bool, italic: bool)
      modifies this`builder
      ensures builder == old(builder) + OpenAll(ActiveTags(color, hexColor, bold, italic))
    {
      if color != White {
        builder := builder + "<color=#";
        builder := builder + hexColor;
        builder := builder + ">";
      }
      ghost var appended := if color != White then "<color=#" + hexColor + ">" else "";
      assert builder == old(builder) + appended;
      if bold {
        builder := builder + "<b>";
      }
      appended := appended + (if bold then "<b>" else "");
      assert builder == old(builder) + appended;
      if italic {
        builder := builder + "<i>";
      }
      appended := appended + (if italic then "<i>" else "");
      OpeningText(color, hexColor, bold, italic);
    }

    /** The closing half of LogInternal's markup: the spans AppendOpeningTags
        opened, closed innermost first. */
    method AppendClosingTags(color: Color, hexColor: string, bold: bool, italic: bool)
      modifies this`builder
      ensures builder == old(builder) + CloseAll(Reverse(ActiveTags(color, hexColor, bold, italic)))
    {
      if italic {
        builder := builder + "</i>";
      }
      ghost var appended := if italic then "</i>" else "";
      assert builder == old(builder) + appended;
      if bold {
        builder := builder + "</b>";
      }
      appended := appended + (if bold then "</b>" else "");
      assert builder == old(builder) + appended;
      if color != White {
        builder := builder + "</color>";
      }
      appended := appended + (if color != White then "</color>" else "");
      ClosingText(color, hexColor, bold, italic);
    }

    /** LogInternal: clear the builder, append the spans and the body, then
        route the result. Nothing of an earlier call survives the clearing. */
    method LogInternal(message: StringConstructor, logType: LogType, color: Color, bold: bool, italic: bool,
                       separateEachStringWithNewLine: bool) returns (thrown: Option<Fault>)
      modifies this`builder, this`sunk
      ensures builder == Decorate(color, hex(color), bold, italic, render(message), separateEachStringWithNewLine)
      ensures logType.Undefined? ==> thrown == Some(ArgumentOutOfRange) && sunk == old(sunk)
      ensures !logType.Undefined? ==> thrown == None && sunk == old(sunk) + [Dispatch(logType, builder).value]
    {
      var hexColor := hex(color);
      ghost var tags := ActiveTags(color, hexColor, bold, italic);
      builder := [];
      AppendOpeningTags(color, hexColor, bold, italic);
      assert builder == OpenAll(tags);
      builder := builder + render(message);
      AppendClosingTags(color, hexColor, bold, italic);
      assert builder == OpenAll(tags) + render(message) + CloseAll(Reverse(tags));
      if separateEachStringWithNewLine {
        builder := builder + "\n";
      }
      assert builder == Decorate(color, hexColor, bold, italic, render(message), separateEachStringWithNewLine) by {
        DecorateClosesInReverse(color, hexColor, bold, italic, render(message), separateEachStringWithNewLine);
      }
      var finalMessage := builder;
      thrown := None;
      match logType
      case Log => sunk := sunk + [DebugLog(finalMessage)];
      case Warning => sunk := sunk + [DebugLogWarning(finalMessage)];
      case Error => sunk := sunk + [DebugLogError(finalMessage)];
      case Assert => sunk := sunk + [DebugLogAssertion(finalMessage)];
      case Exception => sunk := sunk + [DebugLogException(ExceptionObject(finalMessage))];
      case Undefined(_) => thrown := Some(ArgumentOutOfRange);
    }

    /** The single-string adapter: wraps the string, never separates. */
    method LogInternalString(message: string, logType: LogType, color: Color, bold: bool, italic: bool)
      returns (thrown: Option<Fault>)
      modifies this`builder, this`sunk
      ensures Emitted(old(sunk), FromString(message), logType, color, bold, italic, false, thrown)
    {
      thrown := LogInternal(FromString(message), logType, color, bold, italic, false);
    }

    /** The fragment-list adapter: separateEachStringWithNewLine only
        reaches LogInternal, never the StringConstructor. */
    method LogInternalFragments(logType: LogType, color: Color, bold: bool, italic: bool,
                                separateEachStringWithNewLine: bool, messages: seq<string>)
      returns (thrown: Option<Fault>)
      modifies this`builder, this`sunk
      ensures Emitted(old(sunk), FromStrings(messages), logType, color, bold, italic, separateEachStringWithNewLine, thrown)
    {
      thrown := LogInternal(FromStrings(messages), logType, color, bold, italic, separateEachStringWithNewLine);
    }

    /** The state a public overload leaves: what Forward prescribes, or, when
        the colour code cannot be converted, nothing changed at all. */
    ghost predicate Performed(family: Family, call: Overload, before: string, beforeSunk: seq<SinkCall>,
                              thrown: Option<Fault>)
      requires Declares(family, call)
      reads this
    {
      match Forward(family, call, colorFromInt)
      case Err(fault) => thrown == Some(fault) && builder == before && sunk == beforeSunk
      case Ok(r) => Emitted(beforeSunk, r.message, r.logType, r.color, r.bold, r.italic, r.separate, thrown)
    }

    /** Any public overload, routed through the adapter its source form uses. */
    method Invoke(family: Family, call: Overload) returns (thrown: Option<Fault>)
      requires Declares(family, call)
      modifies this`builder, this`sunk
      ensures Performed(family, call, old(builder), old(sunk), thrown)
      ensures thrown != Some(ArgumentOutOfRange)
    {
      match Forward(family, call, colorFromInt)
      case Err(fault) =>
        thrown := Some(fault);
      case Ok(r) =>
        if call.ConstructorMessage? {
          thrown := LogInternal(call.message, r.logType, r.color, r.bold, r.italic, false);
        } else if call.StringMessage? {
          thrown := LogInternalString(call.text, r.logType, r.color, r.bold, r.italic);
        } else {
          thrown := LogInternalFragments(r.logType, r.color, r.bold, r.italic, r.separate, call.messages);
        }
    }

    /** The Log overloads: default colour White, channel Log. */
    method Log(call: Overload) returns (thrown: Option<Fault>)
      requires Declares(LogFamily, call)
      modifies this`builder, this`sunk
      ensures Performed(LogFamily, call, old(builder), old(sunk), thrown)
    {
      thrown := Invoke(LogFamily, call);
    }

    /** The LogWarning overloads: default colour Yellow, channel Warning. */
    method LogWarning(call: Overload) returns (thrown: Option<Fault>)
      requires Declares(LogWarningFamily, call)
      modifies this`builder, this`sunk
      ensures Performed(LogWarningFamily, call, old(builder), old(sunk), thrown)
    {
      thrown := Invoke(LogWarningFamily, call);
    }

    /** The LogError overloads: default colour Red, channel Error. */
    method LogError(call: Overload) returns (thrown: Option<Fault>)
      requires Declares(LogErrorFamily, call)
      modifies this`builder, this`sunk
      ensures Performed(LogErrorFamily, call, old(builder), old(sunk), thrown)
    {
      thrown := Invoke(LogErrorFamily, call);
    }

    /** The LogSuccess overloads: default colour Green, channel Log. */
    method LogSuccess(call: Overload) returns (thrown: Option<Fault>)
      requires Declares(LogSuccessFamily, call)
      modifies this`builder, this`sunk
      ensures Performed(LogSuccessFamily, call, old(builder), old(sunk), thrown)
    {
      thrown := Invoke(LogSuccessFamily, call);
    }

    /** The LogAssertion overloads: default colour Magenta, channel Assert. */
    method LogAssertion(call: Overload) returns (thrown: Option<Fault>)
      requires Declares(LogAssertionFamily, call)
      modifies this`builder, this`sunk
      ensures Performed(LogAssertionFamily, call, old(builder), old(sunk), thrown)
    {
      thrown := Invoke(LogAssertionFamily, call);
    }

    /** The LogException overloads: default colour Blue, channel Exception. */
    method LogException(call: Overload) returns (thrown: Option<Fault>)
      requires Declares(LogExceptionFamily, call)
      modifies this`builder, this`sunk
      ensures Performed(LogExceptionFamily, call, old(builder), old(sunk), thrown)
    {
      thrown := Invoke(LogExceptionFamily, call);
    }
  }

  /** Two loggers with the same collaborators but any history emit the same
      text for the same call: the builder is cleared before use. */
  method HistoryDoesNotLeak(a: JsLogger, b: JsLogger, message: StringConstructor, logType: LogType, color: Color,
                            bold: bool, italic: bool, separate: bool)
    requires a != b && a.hex == b.hex && a.render == b.render
    modifies a, b
    ensures a.builder == b.builder
    ensures |old(a.sunk)| <= |a.sunk| && |old(b.sunk)| <= |b.sunk|
    ensures a.sunk[|old(a.sunk)|..] == b.sunk[|old(b.sunk)|..]
  {
    var thrownA := a.LogInternal(message, logType, color, bold, italic, separate);
    var thrownB := b.LogInternal(message, logType, color, bold, italic, separate);
  }
}
