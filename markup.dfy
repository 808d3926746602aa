/** Unity rich-text markup: the three spans the logger can open around a
    message, and two readings of "wrap a body in spans" that must agree. */
module Markup {

  /** One rich-text span. A colour span carries the hexadecimal code of its
      colour, without the leading '#'. */
  datatype Tag = ColorTag(hex: string) | Bold | Italic

  /** The text that opens a span. */
  function Open(t: Tag): string {
    match t
    case ColorTag(hex) => "<color=#" + hex + ">"
    case Bold => "<b>"
    case Italic => "<i>"
  }

  /** The text that closes a span. */
  function Close(t: Tag): string {
    match t
    case ColorTag(_) => "</color>"
    case Bold => "</b>"
    case Italic => "</i>"
  }

  /** Nesting depth at which a span is opened: colour outermost, italic
      innermost. */
  function Rank(t: Tag): nat {
    match t
    case ColorTag(_) => 0
    case Bold => 1
    case Italic => 2
  }

  /** The nested reading: the first span encloses everything the later spans
      and the body produce, so every span is closed before its parent. */
  function Wrap(tags: seq<Tag>, body: string): string {
    if tags == [] then body else Open(tags[0]) + Wrap(tags[1..], body) + Close(tags[0])
  }

  /** The opening texts of the spans, concatenated in the given order. */
  function OpenAll(tags: seq<Tag>): string {
    if tags == [] then "" else Open(tags[0]) + OpenAll(tags[1..])
  }

  /** The closing texts of the spans, concatenated in the given order. */
  function CloseAll(tags: seq<Tag>): string {
    if tags == [] then "" else Close(tags[0]) + CloseAll(tags[1..])
  }

  function Reverse<T>(s: seq<T>): seq<T> {
    if s == [] then [] else Reverse(s[1..]) + [s[0]]
  }

  lemma {:induction false} ReverseAppend<T>(a: seq<T>, b: seq<T>)
    ensures Reverse(a + b) == Reverse(b) + Reverse(a)
  {
    if a == [] {
      assert a + b == b;
    } else {
      assert (a + b)[1..] == a[1..] + b;
      ReverseAppend(a[1..], b);
    }
  }

  lemma ReverseAtMostOne<T>(s: seq<T>)
    requires |s| <= 1
    ensures Reverse(s) == s
  {
    if s != [] {
      assert Reverse(s) == Reverse(s[1..]) + [s[0]];
      assert s[1..] == [];
    }
  }

  /** The span t when it is requested, and nothing otherwise. */
  function Optional(present: bool, t: Tag): seq<Tag> {
    if present then [t] else []
  }

  lemma OptionalText(present: bool, t: Tag)
    ensures OpenAll(Optional(present, t)) == (if present then Open(t) else "")
    ensures CloseAll(Optional(present, t)) == (if present then Close(t) else "")
    ensures Reverse(Optional(present, t)) == Optional(present, t)
  {
    if present {
      assert OpenAll([t]) == Open(t) + OpenAll([]);
      assert CloseAll([t]) == Close(t) + CloseAll([]);
      ReverseAtMostOne([t]);
    }
  }

  lemma OpenAllThree(a: seq<Tag>, b: seq<Tag>, c: seq<Tag>)
    ensures OpenAll(a + b + c) == OpenAll(a) + OpenAll(b) + OpenAll(c)
  {
    OpenAllAppend(a + b, c);
    OpenAllAppend(a, b);
  }

  lemma CloseAllThree(a: seq<Tag>, b: seq<Tag>, c: seq<Tag>)
    ensures CloseAll(a + b + c) == CloseAll(a) + CloseAll(b) + CloseAll(c)
  {
    CloseAllAppend(a + b, c);
    CloseAllAppend(a, b);
  }

  lemma ReverseThree<T>(a: seq<T>, b: seq<T>, c: seq<T>)
    ensures Reverse(a + b + c) == Reverse(c) + Reverse(b) + Reverse(a)
  {
    ReverseAppend(a + b, c);
    ReverseAppend(a, b);
  }

  lemma AppendThree<T>(x: seq<T>, a: seq<T>, b: seq<T>, c: seq<T>)
    ensures x + (a + b + c) == x + a + b + c
  {
  }

  /** Number of occurrences of the character c in s. */
  function Count(c: char, s: string): nat {
    if s == [] then 0 else (if s[0] == c then 1 else 0) + Count(c, s[1..])
  }

  lemma {:induction false} CloseAllAppend(a: seq<Tag>, b: seq<Tag>)
    ensures CloseAll(a + b) == CloseAll(a) + CloseAll(b)
  {
    if a != [] {
      assert (a + b)[1..] == a[1..] + b;
      CloseAllAppend(a[1..], b);
    } else {
      assert a + b == b;
    }
  }

  lemma {:induction false} OpenAllAppend(a: seq<Tag>, b: seq<Tag>)
    ensures OpenAll(a + b) == OpenAll(a) + OpenAll(b)
  {
    if a != [] {
      assert (a + b)[1..] == a[1..] + b;
      OpenAllAppend(a[1..], b);
    } else {
      assert a + b == b;
    }
  }

  /** The nested reading and the flat one agree: writing every opening tag in
      order, then the body, then every closing tag in REVERSE order yields
      the properly nested markup. */
  lemma {:induction false} WrapFlattens(tags: seq<Tag>, body: string)
    ensures Wrap(tags, body) == OpenAll(tags) + body + CloseAll(Reverse(tags))
  {
    if tags != [] {
      var t, rest := tags[0], tags[1..];
      var opening, closing := OpenAll(rest), CloseAll(Reverse(rest));
      assert CloseAll(Reverse(tags)) == closing + Close(t) by {
        CloseAllAppend(Reverse(rest), [t]);
        assert CloseAll([t]) == Close(t);
      }
      calc {
        Wrap(tags, body);
        Open(t) + Wrap(rest, body) + Close(t);
        { WrapFlattens(rest, body); }
        Open(t) + (opening + body + closing) + Close(t);
        (Open(t) + opening) + body + (closing + Close(t));
      }
    }
  }

  lemma {:induction false} CountAppend(c: char, a: string, b: string)
    ensures Count(c, a + b) == Count(c, a) + Count(c, b)
  {
    if a == [] {
      assert a + b == b;
    } else {
      assert (a + b)[1..] == a[1..] + b;
      CountAppend(c, a[1..], b);
    }
  }

  lemma {:induction false} CountAbsent(c: char, s: string)
    requires c !in s
    ensures Count(c, s) == 0
  {
    if s != [] {
      CountAbsent(c, s[1..]);
    }
  }

  /** No span text contains a line break, except what a colour's own hex code
      might contain. */
  lemma TagNewlines(t: Tag)
    ensures Count('\n', Open(t)) == (if t.ColorTag? then Count('\n', t.hex) else 0)
    ensures Count('\n', Close(t)) == 0
  {
    CountAbsent('\n', Close(t));
    match t
    case ColorTag(hex) =>
      CountAbsent('\n', "<color=#");
      CountAbsent('\n', ">");
      CountAppend('\n', "<color=#", hex);
      CountAppend('\n', "<color=#" + hex, ">");
    case Bold =>
      CountAbsent('\n', Open(t));
    case Italic =>
      CountAbsent('\n', Open(t));
  }

  /** The line breaks of nested markup are those of the body and of the
      colour codes; the spans add none. */
  lemma {:induction false} WrapNewlines(tags: seq<Tag>, body: string)
    ensures Count('\n', Wrap(tags, body)) == Count('\n', body) + HexNewlines(tags)
  {
    if tags != [] {
      WrapNewlines(tags[1..], body);
      TagNewlines(tags[0]);
      CountAppend('\n', Open(tags[0]), Wrap(tags[1..], body));
      CountAppend('\n', Open(tags[0]) + Wrap(tags[1..], body), Close(tags[0]));
    }
  }

  /** Line breaks contained in the colour codes of the spans. */
  function HexNewlines(tags: seq<Tag>): nat {
    if tags == [] then 0
    else (if tags[0].ColorTag? then Count('\n', tags[0].hex) else 0) + HexNewlines(tags[1..])
  }

  lemma {:induction false} HexNewlinesAppend(a: seq<Tag>, b: seq<Tag>)
    ensures HexNewlines(a + b) == HexNewlines(a) + HexNewlines(b)
  {
    if a != [] {
      assert (a + b)[1..] == a[1..] + b;
      HexNewlinesAppend(a[1..], b);
    } else {
      assert a + b == b;
    }
  }
}
