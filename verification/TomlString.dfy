/**
The TOML printer of the Codex MCP configuration and, independently, a reader for the basic
strings, keys and string arrays of TOML v1.0.0 (sections "String", "Keys" and "Array").
*/
module TomlString {
  import opened Wrappers

  // ---- Printing ----

  /** Unicode category Cc, which is what the printer escapes numerically. */
  predicate IsControl(c: char) {
    c as int < 0x20 || 0x7f <= c as int < 0xa0
  }

  function HexDigit(n: nat): char
    requires n < 16
  {
    "0123456789abcdef"[n]
  }

  /** At least four lower-case hexadecimal digits; a control character needs only two of them. */
  function Hex4(n: nat): string
    requires n < 0x1_0000
  {
    [HexDigit(n / 0x1000), HexDigit(n / 0x100 % 16), HexDigit(n / 0x10 % 16), HexDigit(n % 16)]
  }

  function EscapeChar(c: char): string {
    match c
    case '\\' => "\\\\"
    case '\"' => "\\\""
    case '\n' => "\\n"
    case '\r' => "\\r"
    case '\t' => "\\t"
    case _ => if IsControl(c) then "\\u" + Hex4(c as int) else [c]
  }

  function Escape(value: string): string {
    if value == "" then "" else EscapeChar(value[0]) + Escape(value[1..])
  }

  function Quoted(value: string): string {
    "\"" + Escape(value) + "\""
  }

  lemma {:induction false} EscapeSnoc(value: string, c: char)
    ensures Escape(value + [c]) == Escape(value) + EscapeChar(c)
  {
    hide EscapeChar;
    if value == "" {
      assert [c][1..] == "";
    } else {
      assert (value + [c])[1..] == value[1..] + [c];
      EscapeSnoc(value[1..], c);
    }
  }

  method Print(value: string) returns (escaped: string)
    ensures escaped == Quoted(value)
  {
    hide EscapeChar;
    escaped := "\"";
    var i := 0;
    while i < |value|
      invariant 0 <= i <= |value|
      invariant escaped == "\"" + Escape(value[..i])
    {
      var c := value[i];
      escaped := escaped + EscapeChar(c);
      EscapeSnoc(value[..i], c);
      assert value[..i + 1] == value[..i] + [c];
      assert escaped == "\"" + (Escape(value[..i]) + EscapeChar(c));
      i := i + 1;
    }
    assert value[..i] == value;
    escaped := escaped + "\"";
  }

  predicate IsBare(c: char) {
    'a' <= c <= 'z' || 'A' <= c <= 'Z' || '0' <= c <= '9' || c == '_' || c == '-'
  }

  function KeySegment(value: string): string {
    if forall i :: 0 <= i < |value| ==> IsBare(value[i]) then value else Quoted(value)
  }

  function Items(args: seq<string>): string {
    if args == [] then ""
    else if |args| == 1 then Quoted(args[0])
    else Items(args[..|args| - 1]) + ", " + Quoted(args[|args| - 1])
  }

  lemma ItemsSnoc(args: seq<string>, last: string)
    ensures Items(args + [last]) == Items(args) + (if args == [] then "" else ", ") + Quoted(last)
  {
    assert (args + [last])[..|args|] == args;
  }

  /** The `args` array of the server table. */
  method PrintArray(args: seq<string>) returns (output: string)
    ensures output == "[" + Items(args) + "]"
  {
    hide Quoted, ItemsFrom, Items;
    output := "[";
    var i := 0;
    NoItems();
    while i < |args|
      invariant 0 <= i <= |args|
      invariant output == "[" + Items(args[..i])
    {
      if i > 0 {
        output := output + ", ";
      }
      var item := Print(args[i]);
      output := output + item;
      ItemsSnoc(args[..i], args[i]);
      assert args[..i + 1] == args[..i] + [args[i]];
      i := i + 1;
    }
    assert args[..i] == args;
    output := output + "]";
  }

  // ---- Reading, after the grammar of TOML v1.0.0 ----

  /** What may stand for itself inside a basic string. */
  predicate Unescaped(c: char) {
    c == '\t' || c == ' ' || c == '!' || '#' <= c <= '[' || ']' <= c <= '~' || c as int >= 0x80
  }

  function HexValue(c: char): Option<nat> {
    if '0' <= c <= '9' then Some(c as int - '0' as int)
    else if 'a' <= c <= 'f' then Some(c as int - 'a' as int + 10)
    else if 'A' <= c <= 'F' then Some(c as int - 'A' as int + 10)
    else None
  }

  function ReadHex(digits: string): Option<nat> {
    if digits == "" then Some(0)
    else
      var high := ReadHex(digits[..|digits| - 1]);
      var low := HexValue(digits[|digits| - 1]);
      if high.Some? && low.Some? then Some(high.value * 16 + low.value) else None
  }

  /** A code point that is a Unicode scalar value. */
  predicate IsScalar(n: nat) {
    n < 0xd800 || 0xe000 <= n < 0x11_0000
  }

  /** The character an escape stands for, and how many characters the escape takes. */
  function ReadEscape(text: string): Option<(char, nat)>
    requires text != "" && text[0] == '\\'
    ensures ReadEscape(text).Some? ==> 2 <= ReadEscape(text).value.1 <= |text|
  {
    if |text| < 2 then None
    else match text[1]
      case 'b' => Some((8 as char, 2))
      case 't' => Some(('\t', 2))
      case 'n' => Some(('\n', 2))
      case 'f' => Some((12 as char, 2))
      case 'r' => Some(('\r', 2))
      case '\"' => Some(('\"', 2))
      case '\\' => Some(('\\', 2))
      case 'u' => ReadCodePoint(text, 6)
      case 'U' => ReadCodePoint(text, 10)
      case _ => None
  }

  function ReadCodePoint(text: string, size: nat): (r: Option<(char, nat)>)
    requires size >= 2
    ensures r.Some? ==> r.value.1 == size <= |text|
  {
    if |text| < size then None
    else
      var n := ReadHex(text[2..size]);
      if n.Some? && IsScalar(n.value) then Some((n.value as char, size)) else None
  }

  /** The rest of a basic string after its opening quote: its value and what follows the closing quote. */
  function ReadBody(text: string): Option<(string, string)> {
    if text == "" then None
    else if text[0] == '\"' then Some(("", text[1..]))
    else if text[0] == '\\' then
      var escape := ReadEscape(text);
      if escape.None? then None else Prepend(escape.value.0, ReadBody(text[escape.value.1..]))
    else if Unescaped(text[0]) then Prepend(text[0], ReadBody(text[1..]))
    else None
  }

  function Prepend(c: char, read: Option<(string, string)>): Option<(string, string)> {
    if read.None? then None else Some(([c] + read.value.0, read.value.1))
  }

  function ReadString(text: string): Option<(string, string)> {
    if text == "" || text[0] != '\"' then None else ReadBody(text[1..])
  }

  /** The longest prefix of bare-key characters. */
  function BareRun(text: string): (run: string)
    ensures run <= text
  {
    if text == "" || !IsBare(text[0]) then "" else [text[0]] + BareRun(text[1..])
  }

  /** A bare key, which is not empty, or a quoted one. */
  function ReadKey(text: string): Option<(string, string)> {
    if text != "" && text[0] == '\"' then ReadString(text)
    else
      var run := BareRun(text);
      if run == "" then None else Some((run, text[|run|..]))
  }

  /** The items of an array of strings, up to and including the closing bracket. */
  function ReadItems(text: string): Option<(seq<string>, string)>
    decreases |text|
  {
    var first := ReadString(text);
    if first.None? then None
    else
      var rest := first.value.1;
      if |rest| >= 1 && rest[0] == ']' then Some(([first.value.0], rest[1..]))
      else if |rest| >= 2 && rest[..2] == ", " && |rest| - 2 < |text| then
        var more := ReadItems(rest[2..]);
        if more.None? then None else Some(([first.value.0] + more.value.0, more.value.1))
      else None
  }

  function ReadArray(text: string): Option<(seq<string>, string)> {
    if text == "" || text[0] != '[' then None
    else if |text| >= 2 && text[1] == ']' then Some(([], text[2..]))
    else ReadItems(text[1..])
  }

  // ---- Round trips ----

  lemma HexRoundTrip(n: nat)
    requires n < 0x100
    ensures ReadHex(Hex4(n)) == Some(n)
  {
    var digits := Hex4(n);
    var d0, d1, d2, d3 := digits[0], digits[1], digits[2], digits[3];
    assert digits[..3] == [d0, d1, d2];
    assert [d0, d1, d2][..2] == [d0, d1];
    assert [d0, d1][..1] == [d0];
    assert [d0][..0] == "";
    assert n / 0x1000 == 0 && n / 0x100 % 16 == 0;
    HexDigitValue(0);
    HexDigitValue(n / 16 % 16);
    HexDigitValue(n % 16);
    hide HexDigit, HexValue;
    assert ReadHex([d0]) == Some(0);
    assert ReadHex([d0, d1]) == Some(0);
    assert ReadHex([d0, d1, d2]) == Some(n / 16 % 16);
  }

  lemma HexDigitValue(n: nat)
    requires n < 16
    ensures HexValue(HexDigit(n)) == Some(n)
  {
    if n < 10 {
      assert HexDigit(n) as int == '0' as int + n;
    }
  }

  lemma ReadsEscapedChar(c: char, rest: string)
    ensures ReadBody(EscapeChar(c) + rest) == Prepend(c, ReadBody(rest))
  {
    if IsControl(c) && c !in "\n\r\t" {
      ReadsHexEscape(c, rest);
    } else {
      var text := EscapeChar(c) + rest;
      assert text[|EscapeChar(c)|..] == rest;
      hide Hex4, ReadHex, ReadCodePoint;
    }
  }

  lemma ReadsHexEscape(c: char, rest: string)
    requires IsControl(c)
    ensures ReadBody("\\u" + Hex4(c as int) + rest) == Prepend(c, ReadBody(rest))
  {
    var text := "\\u" + Hex4(c as int) + rest;
    HexRoundTrip(c as int);
    hide Hex4, ReadHex;
    assert |text| >= 6 && text[0] == '\\' && text[1] == 'u' && text[2..6] == Hex4(c as int) && text[6..] == rest;
    assert ReadEscape(text) == Some((c, 6));
  }

  /** Reading the escaped body of any string gives that string back and stops at its closing quote. */
  lemma {:induction false} BodyRoundTrip(value: string, rest: string)
    ensures ReadBody(Escape(value) + "\"" + rest) == Some((value, rest))
  {
    if value == "" {
      assert Escape(value) + "\"" + rest == "\"" + rest;
      assert ("\"" + rest)[1..] == rest;
    } else {
      var tail := Escape(value[1..]) + "\"" + rest;
      assert Escape(value) + "\"" + rest == EscapeChar(value[0]) + tail;
      ReadsEscapedChar(value[0], tail);
      BodyRoundTrip(value[1..], rest);
      assert [value[0]] + value[1..] == value;
    }
  }

  /** Whatever follows it, a printed string reads back as the string it was printed from. */
  lemma StringRoundTrip(value: string, rest: string)
    ensures ReadString(Quoted(value) + rest) == Some((value, rest))
  {
    assert (Quoted(value) + rest)[1..] == Escape(value) + "\"" + rest;
    BodyRoundTrip(value, rest);
  }

  /** Different strings print differently. */
  lemma PrintIsInjective(a: string, b: string)
    requires Quoted(a) == Quoted(b)
    ensures a == b
  {
    StringRoundTrip(a, "");
    StringRoundTrip(b, "");
    assert Quoted(a) + "" == Quoted(b) + "";
  }

  /** An escaped body is made of escapes and characters that may stand for themselves. */
  ghost predicate CleanBody(body: string) {
    body == "" ||
    if body[0] == '\\' then
      ReadEscape(body).Some? && CleanBody(body[ReadEscape(body).value.1..])
    else
      body[0] != '\"' && !IsControl(body[0]) && CleanBody(body[1..])
  }

  lemma EscapedCharIsClean(c: char, rest: string)
    requires CleanBody(rest)
    ensures CleanBody(EscapeChar(c) + rest)
    ensures forall i :: 0 <= i < |EscapeChar(c)| ==> !IsControl(EscapeChar(c)[i])
  {
    var text := EscapeChar(c) + rest;
    assert text[|EscapeChar(c)|..] == rest;
    if IsControl(c) && c !in "\n\r\t" {
      assert text[2..6] == Hex4(c as int);
      HexRoundTrip(c as int);
      HexIsPrintable();
    }
  }

  /** The printed body holds no unescaped quote and no raw control character. */
  lemma {:induction false} BodyIsClean(value: string)
    ensures CleanBody(Escape(value))
    ensures forall i :: 0 <= i < |Escape(value)| ==> !IsControl(Escape(value)[i])
  {
    if value != "" {
      BodyIsClean(value[1..]);
      EscapedCharIsClean(value[0], Escape(value[1..]));
    }
  }

  lemma HexIsPrintable()
    ensures forall n: nat | n < 16 :: !IsControl(HexDigit(n))
  {
    forall n: nat | n < 16 ensures !IsControl(HexDigit(n)) {
      HexDigitValue(n);
    }
  }

  lemma {:induction false} BareRunStops(value: string, rest: string)
    requires forall i :: 0 <= i < |value| ==> IsBare(value[i])
    requires rest != "" && !IsBare(rest[0])
    ensures BareRun(value + rest) == value
  {
    if value == "" {
      assert value + rest == rest;
    } else {
      assert (value + rest)[1..] == value[1..] + rest;
      BareRunStops(value[1..], rest);
    }
  }

  /**
  A key segment reads back as its value exactly when the value is not empty: the printer leaves
  an empty key bare, and TOML has no empty bare key.
  */
  lemma KeyRoundTrip(value: string, rest: string)
    ensures ReadKey(KeySegment(value) + "]" + rest) == Some((value, "]" + rest)) <==> value != ""
  {
    var tail := "]" + rest;
    assert KeySegment(value) + "]" + rest == KeySegment(value) + tail;
    if forall i :: 0 <= i < |value| ==> IsBare(value[i]) {
      BareRunStops(value, tail);
      assert (value + tail)[|value|..] == tail;
    } else {
      StringRoundTrip(value, tail);
    }
  }

  function ItemsFrom(args: seq<string>): string
    requires args != []
  {
    if |args| == 1 then Quoted(args[0]) else Quoted(args[0]) + ", " + ItemsFrom(args[1..])
  }

  lemma {:induction false} ItemsFromFront(args: seq<string>)
    requires args != []
    ensures Items(args) == ItemsFrom(args)
  {
    hide Quoted;
    if |args| > 1 {
      var front, last := args[..|args| - 1], args[|args| - 1];
      ItemsFromFront(front);
      ItemsFromSnoc(front, last);
      assert args == front + [last];
    }
  }

  lemma NoItems()
    ensures Items([]) == ""
  {
  }

  lemma {:induction false} ItemsFromSnoc(front: seq<string>, last: string)
    requires front != []
    ensures ItemsFrom(front + [last]) == ItemsFrom(front) + ", " + Quoted(last)
  {
    hide Quoted;
    assert (front + [last])[1..] == front[1..] + [last];
    if |front| > 1 {
      ItemsFromSnoc(front[1..], last);
      assert ItemsFrom(front + [last]) == Quoted(front[0]) + ", " + (ItemsFrom(front[1..]) + ", " + Quoted(last));
      assert ItemsFrom(front) == Quoted(front[0]) + ", " + ItemsFrom(front[1..]);
    } else {
      assert front[1..] + [last] == [last];
    }
  }

  lemma {:induction false} ItemsRoundTrip(args: seq<string>, rest: string)
    requires args != []
    ensures ReadItems(ItemsFrom(args) + "]" + rest) == Some((args, rest))
  {
    hide Quoted;
    var text := ItemsFrom(args) + "]" + rest;
    if |args| == 1 {
      assert text == Quoted(args[0]) + ("]" + rest);
      StringRoundTrip(args[0], "]" + rest);
      assert ("]" + rest)[1..] == rest;
      assert args == [args[0]];
    } else {
      var more := ItemsFrom(args[1..]) + "]" + rest;
      assert text == Quoted(args[0]) + (", " + more);
      StringRoundTrip(args[0], ", " + more);
      assert (", " + more)[2..] == more && (", " + more)[..2] == ", ";
      ItemsRoundTrip(args[1..], rest);
      assert args == [args[0]] + args[1..];
    }
  }

  /** The printed argument array reads back as the arguments, whatever they contain. */
  lemma ArrayRoundTrip(args: seq<string>, rest: string)
    ensures ReadArray("[" + Items(args) + "]" + rest) == Some((args, rest))
  {
    var text := "[" + Items(args) + "]" + rest;
    if args == [] {
      assert text[2..] == rest;
    } else {
      ItemsFromFront(args);
      ItemsStartQuoted(args);
      ItemsRoundTrip(args, rest);
      hide Items, ItemsFrom, ReadItems;
      var body := ItemsFrom(args) + "]" + rest;
      assert text == "[" + body && text[1..] == body && body[0] == '\"';
    }
  }

  lemma ItemsStartQuoted(args: seq<string>)
    requires args != []
    ensures ItemsFrom(args) != "" && ItemsFrom(args)[0] == '\"'
  {
    hide Escape;
  }
}
