/** A reader of printed values: the inverse side of the printer. It works on the text that is left. */
module Reader {
  import opened Text
  import opened Printer
  import opened Values

  datatype Parse = Parse(value: Value, rest: string)
  datatype ItemsParse = ItemsParse(items: Items, rest: string)
  datatype TextParse = TextParse(text: string, rest: string)

  function SkipWhitespace(s: string): (r: string)
    ensures |r| <= |s|
  {
    if s != "" && IsWhitespace(s[0]) then SkipWhitespace(s[1..]) else s
  }

  predicate AtomChar(c: char) {
    !IsWhitespace(c) && c !in {'(', ')'}
  }

  function AtomLen(s: string): (n: nat)
    ensures n <= |s|
  {
    if s != "" && AtomChar(s[0]) then 1 + AtomLen(s[1..]) else 0
  }

  predicate SameIgnoringCase(a: string, b: string) {
    Upper(a) == Upper(b)
  }

  /** A whole text that is one value. */
  function ReadAll(text: string): Option<Value>
  {
    match ReadValue(SkipWhitespace(text))
    case None => None
    case Some(p) => if SkipWhitespace(p.rest) == "" then Some(p.value) else None
  }

  function ReadValue(s: string): (r: Option<Parse>)
    ensures r.Some? ==> |r.value.rest| < |s|
    decreases |s|, 0
  {
    if s == "" then None
    else if s[0] == '(' then
      match ReadItems(SkipWhitespace(s[1..]), true)
      case None => None
      case Some(p) => Some(Parse(RecognizeList(p.items), p.rest))
    else if s[0] == '"' then
      match ReadString(s[1..])
      case None => None
      case Some(p) => Some(Parse(VString([p.text]), p.rest))
    else if |s| >= 2 && s[..2] == "#<" then ReadOpaque(s[2..])
    else ReadAtom(s)
  }

  /** A dot counts only where a delimiter follows it. */
  predicate AtDot(s: string) {
    s != "" && s[0] == '.' && (|s| == 1 || IsWhitespace(s[1]) || s[1] == ')')
  }

  function ReadItems(s: string, first: bool): (r: Option<ItemsParse>)
    ensures r.Some? ==> |r.value.rest| < |s|
    decreases |s|, 1
  {
    if s == "" then None
    else if s[0] == ')' then Some(ItemsParse(Close, s[1..]))
    else if AtDot(s) then
      if first then None
      else
        match ReadValue(SkipWhitespace(s[1..]))
        case None => None
        case Some(p) =>
          var rest := SkipWhitespace(p.rest);
          if rest != "" && rest[0] == ')' then Some(ItemsParse(Dotted(p.value), rest[1..])) else None
    else
      match ReadValue(s)
      case None => None
      case Some(p) =>
        var rest := SkipWhitespace(p.rest);
        if rest == "" then None
        else
          match ReadItems(rest, false)
          case None => None
          case Some(q) => Some(ItemsParse(More(p.value, q.items), q.rest))
  }

  predicate IsHandle(h: string) {
    h != "" && forall c | c in h :: IsHexDigit(c)
  }

  /** A two-element list that calls `handent` on a handle. */
  predicate IsEntityCall(items: Items) {
    && items.More? && items.head.VSymbol? && SameIgnoringCase(Flatten(items.head.pieces), "handent")
    && items.rest.More? && items.rest.head.VString? && IsHandle(Flatten(items.rest.head.pieces))
    && items.rest.rest == Close
  }

  function RecognizeList(items: Items): Value {
    if IsEntityCall(items) then VEntity(Some(Flatten(items.rest.head.pieces))) else VList(items)
  }

  /** The rest of a string literal, after its opening quote. */
  function ReadString(s: string): (r: Option<TextParse>)
    ensures r.Some? ==> |r.value.rest| < |s|
    decreases |s|
  {
    if s == "" then None
    else if s[0] == '"' then Some(TextParse("", s[1..]))
    else if s[0] == '\\' then
      match ReadEscape(s[1..])
      case None => None
      case Some(e) => Prepend(e.text, ReadString(e.rest))
    else if IsControl(s[0]) then None
    else Prepend([s[0]], ReadString(s[1..]))
  }

  function Prepend(t: string, r: Option<TextParse>): Option<TextParse>
  {
    match r
    case None => None
    case Some(p) => Some(TextParse(t + p.text, p.rest))
  }

  predicate IsOctal(c: char) {
    '0' <= c <= '7'
  }

  function OctalValue(a: char, b: char, c: char): (n: nat)
    requires IsOctal(a) && IsOctal(b) && IsOctal(c)
    ensures n < 512
  {
    (a as int - '0' as int) * 64 + (b as int - '0' as int) * 8 + (c as int - '0' as int)
  }

  /** One escape, after its backslash. */
  function ReadEscape(s: string): (r: Option<TextParse>)
    ensures r.Some? ==> |r.value.rest| < |s|
  {
    if s == "" then None
    else if s[0] in {'"', '\\'} then Some(TextParse([s[0]], s[1..]))
    else if s[0] == 'e' then Some(TextParse("\U{1b}", s[1..]))
    else if s[0] == 'n' then Some(TextParse("\n", s[1..]))
    else if s[0] == 'r' then Some(TextParse("\r", s[1..]))
    else if s[0] == 't' then Some(TextParse("\t", s[1..]))
    else if IsOctal(s[0]) && |s| >= 3 && IsOctal(s[1]) && IsOctal(s[2]) then
      Some(TextParse([OctalValue(s[0], s[1], s[2]) as char], s[3..]))
    else None
  }

  /** The rest of an opaque value, after its opening mark. */
  function ReadOpaque(s: string): (r: Option<Parse>)
    ensures r.Some? ==> |r.value.rest| < |s|
    ensures r.Some? ==> r.value.value.VOpaque? || r.value.value == VEntity(None)
  {
    var n := IndexOf(s, {'>'});
    if n == |s| then None
    else
      match OpaqueValue(s[..n])
      case None => None
      case Some(v) => Some(Parse(v, s[n + 1..]))
  }

  function OpaqueValue(content: string): (r: Option<Value>)
    ensures r.Some? ==> r.value.VOpaque? || r.value == VEntity(None)
  {
    var n := IndexOf(content, {' '});
    if n < |content| then
      var payload := content[n + 1..];
      if content[..n] == "Object" && payload != "" && (forall c | c in payload :: LabelChar(c))
      then Some(VOpaque(Object(Some(payload)))) else None
    else NamedValue(content)
  }

  function NamedValue(name: string): (r: Option<Value>)
    ensures r.Some? ==> r.value.VOpaque? || r.value == VEntity(None)
  {
    if name == "Entity" then Some(VEntity(None))
    else if name == "SelectionSet" then Some(VOpaque(SelectionSet))
    else if name == "VlaObject" then Some(VOpaque(VlaObject))
    else if name == "File" then Some(VOpaque(File))
    else if name == "Function" then Some(VOpaque(Function))
    else if name == "Error" then Some(VOpaque(Error))
    else if name == "Object" then Some(VOpaque(Object(None)))
    else if name == "Cycle" then Some(VOpaque(Cycle))
    else if name == "TooDeep" then Some(VOpaque(TooDeep))
    else None
  }

  function ReadAtom(s: string): (r: Option<Parse>)
    ensures r.Some? ==> |r.value.rest| < |s|
  {
    var n := AtomLen(s);
    if n == 0 then None
    else
      match Classify(s[..n])
      case None => None
      case Some(v) => Some(Parse(v, s[n..]))
  }

  function Classify(token: string): Option<Value>
  {
    if SameIgnoringCase(token, "nil") then Some(VNil)
    else if SameIgnoringCase(token, "t") then Some(VTrue)
    else if IsInteger(token) then
      var n := Number(token);
      if -0x8000_0000_0000_0000 <= n < 0x8000_0000_0000_0000 then Some(VInteger(n)) else None
    else if IsReal(token) then Some(VReal(token))
    else
      match DecodeSymbol(token)
      case None => None
      case Some(name) =>
        if name != "" && (forall c | c in name :: ValidSymbolChar(c)) then Some(VSymbol([name])) else None
  }

  function DigitsValue(s: string): nat
    requires AllDigits(s)
  {
    if s == "" then 0
    else
      assert s[|s| - 1] in s;
      DigitsValue(s[..|s| - 1]) * 10 + (s[|s| - 1] as int - '0' as int)
  }

  function Number(token: string): int
    requires IsInteger(token)
  {
    if token[0] == '-' then -(DigitsValue(Unsigned(token)) as int) else DigitsValue(Unsigned(token))
  }

  function DecodeSymbol(token: string): Option<string>
  {
    if token == "" then Some("")
    else if token[0] != '\\' then
      match DecodeSymbol(token[1..])
      case None => None
      case Some(t) => Some([token[0]] + t)
    else if |token| >= 2 && token[1] == '\\' then
      match DecodeSymbol(token[2..])
      case None => None
      case Some(t) => Some("\\" + t)
    else None
  }
}
