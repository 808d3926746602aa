# JsLogger formatter and dispatcher, modelled in Dafny

The C# library's `JsLogger` is a static logging facade for Unity. Its one real
routine, `LogInternal`, does three things. It clears a shared `StringBuilder`.
It wraps the message in Unity rich-text spans: `<color=#HEX>` (skipped for
`White`), then `<b>`, then `<i>`, and closes them in reverse order. It may add a
trailing line break. Then it hands the finished string to exactly one of Unity's
five `Debug.*` channels, chosen by `LogType`, or throws
`ArgumentOutOfRangeException` for any other `LogType` value. The six public
families (`Log`, `LogWarning`, `LogError`, `LogSuccess`, `LogAssertion`,
`LogException`) only fill in a default colour and a fixed `LogType`.

Files:

- `markup.dfy`, module `Markup`: rich-text spans (`Tag`) and two readings of
  "wrap a body in spans". `Wrap` is the nested reading, where each span encloses
  the ones after it. `OpenAll(tags) + body + CloseAll(Reverse(tags))` is the flat
  reading, which is how `LogInternal` appends. `WrapFlattens` proves the two
  agree. The module also holds line-break counting (`Count`).
- `jslogger.dfy`, module `JsDebug`: the data model (`Color`, `LogType`,
  `StringConstructor`, `SinkCall`, `Fault`) and the specification functions.
  `Decorate` gives the finished text. `Dispatch` gives the sink call for a
  `LogType`. `Forward` gives the arguments a public overload passes to
  `LogInternal`. The module also has the class `JsLogger`. Its field `builder` is
  the shared `StringBuilder`, and its ghost field `sunk` records every call made
  into `Debug`. `LogInternal` appends to `builder` step by step and then routes
  the result.

The static class becomes a single `JsLogger` object. The code it calls but
does not contain becomes arrow-typed constants of that object, fixed at
construction: `ColorTools.GetHexColor` is `hex`, the text a `StringConstructor`
appends is `render`, and `EnumExtensions.FromInt<Color>` is `colorFromInt`
(`None` where it throws). Every property holds for any choice of these
three. `Color` names the six palette members the logger uses; `OtherColor`
stands for the rest. `LogType.Undefined(code)` stands for any integer the enum
can hold that is none of Unity's five members.

Each public overload is a case of `Overload`, with its arguments in declared
order. An optional parameter is `None` when the caller leaves it out.
`Declares` records which families have which overloads: `Log` has no
`StringConstructor` overload, and `LogSuccess` has no overload that takes only
the fragments.

The name `separateEachStringWithNewLine` suggests a line break after every
fragment. But the flag never reaches the `StringConstructor`
(Runtime/JsLogger.cs:101-103). It only controls the single line break after the
closing tags (lines 69-72), and the model says exactly that.

## Model

| member | source | states |
|---|---|---|
| `Markup.WrapFlattens` | Runtime/JsLogger.cs:35-67 | Writing all the opening tags in order, then the body, then all the closing tags in reverse order gives exactly the properly nested markup: each span is closed before the span that encloses it. |
| `Markup.WrapNewlines` | Runtime/JsLogger.cs:35-67 | The line breaks in the nested markup are the body's plus any inside colour codes. The tags add none. |
| `JsDebug.ActiveTagsNesting` | Runtime/JsLogger.cs:35-50 | A colour span opens if and only if the colour is not White. Bold opens if and only if `bold` is set, and italic if and only if `italic` is set. No other span opens, and the nesting order is colour, then bold, then italic. |
| `JsDebug.OpeningText` | Runtime/JsLogger.cs:35-50 | The opening text is `"<color=#" + hex + ">"` when the colour is not White, then `<b>` when bold, then `<i>` when italic. |
| `JsDebug.ClosingText` | Runtime/JsLogger.cs:54-67 | The closing text is `</i>` when italic, then `</b>` when bold, then `</color>` when the colour is not White: the reverse of the opening order. |
| `JsDebug.DecorateSpelledOut` | Runtime/JsLogger.cs:35-72 | The nested meaning of the message equals the literal text `LogInternal` appends: colour opener, `<b>`, `<i>`, body, `</i>`, `</b>`, `</color>`, optional `\n`, each present exactly under its condition. |
| `JsDebug.DecorateClosesInReverse` | Runtime/JsLogger.cs:35-72 | The finished message is the opening tags, then the body, then the same tags closed in reverse order, then the optional line break. |
| `JsDebug.WhiteHasNoColorSpan` | Runtime/JsLogger.cs:31-67 | With White, no colour span is produced. The hex code, which is still looked up, has no effect on the output. With White, no bold, no italic and no separation, the body passes through unchanged. |
| `JsDebug.DecorateNewlines` | Runtime/JsLogger.cs:69-72 | The output's line breaks are the body's, plus those of the hex code if a colour span is open, plus exactly one if `separateEachStringWithNewLine` holds. |
| `JsDebug.SeparateAppendsLastNewline` | Runtime/JsLogger.cs:69-72 | With separation the output is the output without separation followed by one `\n`, after every closing tag. |
| `JsDebug.Dispatch` | Runtime/JsLogger.cs:76-95 | A sink call is made if and only if the `LogType` is one of the five members; otherwise the call throws instead. The call's channel is that `LogType` and its text is the finished message (for `Exception`, the message of the new exception). |
| `JsDebug.DispatchInjective` | Runtime/JsLogger.cs:76-92 | Different channels or different texts never produce the same sink call, so the call identifies both the channel and the message. |
| `JsDebug.Forward` | Runtime/JsLogger.cs:98-242 | A public overload fails only when its integer colour code does not convert, and then with that code. Otherwise it forwards its family's fixed `LogType`, never an undefined one. An omitted colour becomes the family's default colour and a given one is passed on. An omitted flag becomes false and a given one is passed on to the matching parameter, with `LogException`'s styled-fragment flags swapped. The string overload forwards `FromString(text)`, the `StringConstructor` overload the caller's message, and the fragment overloads the fragments unchanged. The single-string, `StringConstructor` and bare-fragment overloads never set separation. Overloads that take no style use the default colour and no bold or italic. |
| `JsDebug.FamilyTable` | Runtime/JsLogger.cs:113-242 | Each family's default colour and `LogType`: Log is White/Log, LogWarning Yellow/Warning, LogError Red/Error, LogSuccess Green/Log, LogAssertion Magenta/Assert, LogException Blue/Exception. Only Log and LogSuccess share a channel, and no two families share a default colour. |
| `JsDebug.StyledFragmentsBinding` | Runtime/JsLogger.cs:229-231 | `LogException` declares its flags as (bold, separate, italic) and still forwards each one to the matching `LogInternal` parameter. The other families declare them as (bold, italic, separate). A given colour is passed on, and an omitted one takes the family default. |
| `JsDebug.OmittedArgumentsTakeDefaults` | Runtime/JsLogger.cs:113-242 | A call that gives only its message, for every overload a family declares, forwards exactly the family's default colour and channel, no bold, no italic and no separation. For example, `LogWarning("x")` logs `x` in Yellow on the Warning channel. |
| `JsDebug.JsLogger.constructor` | Runtime/JsLogger.cs:21 | The shared builder starts empty, no sink call has been made, and the collaborators are the given ones. |
| `JsDebug.JsLogger.AppendOpeningTags` | Runtime/JsLogger.cs:35-50 | Appends exactly the opening tags of the active spans to the builder. |
| `JsDebug.JsLogger.AppendClosingTags` | Runtime/JsLogger.cs:54-67 | Appends exactly the closing tags of the active spans, in reverse order, to the builder. |
| `JsDebug.JsLogger.LogInternal` | Runtime/JsLogger.cs:23-96 | The builder ends up holding the decorated message, whatever it held before. For one of the five `LogType`s, exactly one sink call carrying that message is added on the matching channel. For any other value, `ArgumentOutOfRange` is thrown and no sink call is made. |
| `JsDebug.JsLogger.LogInternalString` | Runtime/JsLogger.cs:98-99 | A single string is wrapped in a `StringConstructor` and logged without the trailing line break. |
| `JsDebug.JsLogger.LogInternalFragments` | Runtime/JsLogger.cs:101-103 | The fragments are wrapped in a `StringConstructor`. The separation flag reaches `LogInternal` only. |
| `JsDebug.JsLogger.Invoke` | Runtime/JsLogger.cs:113-242 | Any public overload ends in the state `Forward` prescribes. If the colour code fails to convert, the builder and the sink trace are left untouched. It never throws `ArgumentOutOfRange`. |
| `JsDebug.JsLogger.Log` | Runtime/JsLogger.cs:113-129 | The `Log` overloads behave as `Forward` prescribes for that family: White and the Log channel. |
| `JsDebug.JsLogger.LogWarning` | Runtime/JsLogger.cs:131-152 | The same for `LogWarning`: Yellow and the Warning channel. |
| `JsDebug.JsLogger.LogError` | Runtime/JsLogger.cs:154-175 | The same for `LogError`: Red and the Error channel. |
| `JsDebug.JsLogger.LogSuccess` | Runtime/JsLogger.cs:177-196 | The same for `LogSuccess`: Green and the Log channel. |
| `JsDebug.JsLogger.LogAssertion` | Runtime/JsLogger.cs:198-219 | The same for `LogAssertion`: Magenta and the Assert channel. |
| `JsDebug.JsLogger.LogException` | Runtime/JsLogger.cs:221-242 | The same for `LogException`: Blue and the Exception channel, with the exception carrying the message. |
| `JsDebug.HistoryDoesNotLeak` | Runtime/JsLogger.cs:21-33 | Two loggers with the same collaborators and different histories produce the same builder contents and the same new sink calls for the same call, because the builder is cleared first. |

## Left out

- Unity's `Debug.Log`, `LogWarning`, `LogError`, `LogAssertion` and `LogException` are calls into Unity. They appear only as entries in a ghost trace, and the `Exception` passed to `LogException` only as the carrier of its message.
- `ColorTools.GetHexColor` is a foreign library, modelled as the abstract `hex`. It is called even for White (line 31), before the builder is cleared. If it can throw, that throw is not modelled.
- How a `StringConstructor` is built and rendered is in a library this model does not include, so it is modelled as the abstract `render`. No join or separator is assumed, including per-fragment line breaks.
- `EnumExtensions.FromInt<Color>` is modelled as the abstract `colorFromInt`. The model does not say which integers it rejects or which exception it throws. It only says that a rejected integer means no call to `LogInternal`.
- C# overload resolution is not modelled: which overload a given call site binds to, and how positional arguments interact with optional parameters and `params` arrays. A call names its overload directly, and optional arguments are given or omitted one by one, as with named arguments.
- The shared static `StringBuilder` is not thread-safe. Concurrent calls are not modelled.
- `LogLevel` (lines 13-19) is declared but never used, so it is not modelled.
