/**
 Where the forms of a source text lie, as functions on positions. The automaton `Step` reads the same
 text one character at a time and knows nothing of forms: it is the reference for lists and trivia.
 */
module Forms {
  import opened Text

  datatype ScanErrorKind =
    | UnexpectedCloseParen | UnterminatedList | UnterminatedString | UnterminatedBlockComment | MissingQuotedForm

  /** A scan reaches a position, or fails because of what is at one. */
  datatype Scan = At(end: nat) | Fail(kind: ScanErrorKind, place: nat)

  // ----- Positions -----

  predicate CrLfAt(s: string, i: nat) {
    i + 1 < |s| && s[i] == '\r' && s[i + 1] == '\n'
  }

  /** A carriage return takes the line feed after it along. */
  function Advance(s: string, i: nat): (r: nat)
    requires i <= |s|
    ensures i <= r <= |s| && (i < |s| ==> i < r)
  {
    if i == |s| then i else if CrLfAt(s, i) then i + 2 else i + 1
  }

  /** Not between a carriage return and its line feed. */
  predicate Whole(s: string, i: nat) {
    i <= |s| && (i > 0 ==> !CrLfAt(s, i - 1))
  }

  predicate BreakAt(s: string, i: nat)
    requires i < |s|
  {
    s[i] == '\r' || (s[i] == '\n' && (i == 0 || s[i - 1] != '\r'))
  }

  /** One more than the line breaks before `i`, a carriage return with its line feed being one. */
  function LineAt(s: string, i: nat): nat
    requires i <= |s|
  {
    if i == 0 then 1 else LineAt(s, i - 1) + if BreakAt(s, i - 1) then 1 else 0
  }

  /** One more than the characters between the last line break and `i`. */
  function ColumnAt(s: string, i: nat): nat
    requires i <= |s|
  {
    if i == 0 || s[i - 1] in {'\r', '\n'} then 1 else ColumnAt(s, i - 1) + 1
  }

  function ByteAt(s: string, i: nat): nat
    requires i <= |s|
  {
    if i == 0 then 0 else ByteAt(s, i - 1) + Utf8Len(s[i - 1])
  }

  // ----- Trivia -----

  function LineEnd(s: string, i: nat): (r: nat)
    requires i <= |s|
    ensures i <= r <= |s|
    decreases |s| - i
  {
    if i < |s| && s[i] !in {'\r', '\n'} then LineEnd(s, i + 1) else i
  }

  predicate PairAt(s: string, i: nat, a: char, b: char) {
    i + 1 < |s| && s[i] == a && s[i + 1] == b
  }

  function BlockEnd(s: string, i: nat, start: nat): (r: Scan)
    requires i <= |s|
    ensures r.At? ==> i < r.end <= |s|
    decreases |s| - i
  {
    if PairAt(s, i, '|', ';') then At(i + 2)
    else if i == |s| then Fail(UnterminatedBlockComment, start)
    else BlockEnd(s, Advance(s, i), start)
  }

  function CommentEnd(s: string, i: nat): (r: Scan)
    requires i < |s| && s[i] == ';'
    ensures r.At? ==> i < r.end <= |s|
  {
    if PairAt(s, i, ';', '|') then BlockEnd(s, i + 2, i) else At(LineEnd(s, i))
  }

  function SpaceEnd(s: string, i: nat): (r: nat)
    requires i <= |s|
    ensures i <= r <= |s| && (r < |s| ==> !IsWhitespace(s[r]))
    decreases |s| - i
  {
    if i < |s| && IsWhitespace(s[i]) then SpaceEnd(s, Advance(s, i)) else i
  }

  function TriviaEnd(s: string, i: nat): (r: Scan)
    requires i <= |s|
    ensures r.At? ==> i <= r.end <= |s| && (r.end < |s| ==> !IsWhitespace(s[r.end]) && s[r.end] != ';')
    decreases |s| - i
  {
    var j := SpaceEnd(s, i);
    if j == |s| || s[j] != ';' then At(j)
    else
      match CommentEnd(s, j)
      case At(k) => TriviaEnd(s, k)
      case Fail(kind, place) => Fail(kind, place)
  }

  // ----- Strings, lists and atoms -----

  /** Inside the string that began at `start`. */
  function StringEnd(s: string, i: nat, start: nat): (r: Scan)
    requires i <= |s|
    ensures r.At? ==> i < r.end <= |s|
    decreases |s| - i
  {
    if i == |s| then Fail(UnterminatedString, start)
    else if s[i] == '"' then At(i + 1)
    else if s[i] == '\\' then
      if i + 1 == |s| then Fail(UnterminatedString, start) else StringEnd(s, Advance(s, i + 1), start)
    else StringEnd(s, Advance(s, i), start)
  }

  /** Inside `depth` open parentheses of the list that began at `start`. */
  function ListEnd(s: string, i: nat, depth: nat, start: nat): (r: Scan)
    requires i <= |s| && (depth == 0 ==> i < |s| && s[i] == '(')
    ensures r.At? ==> i < r.end <= |s|
    decreases |s| - i
  {
    if i == |s| then Fail(UnterminatedList, start)
    else if s[i] == '(' then ListEnd(s, i + 1, depth + 1, start)
    else if s[i] == ')' then if depth == 1 then At(i + 1) else ListEnd(s, i + 1, depth - 1, start)
    else if s[i] == '"' then ListAfter(s, StringEnd(s, i + 1, i), i, depth, start)
    else if s[i] == ';' then ListAfter(s, CommentEnd(s, i), i, depth, start)
    else ListEnd(s, Advance(s, i), depth, start)
  }

  function ListAfter(s: string, inner: Scan, i: nat, depth: nat, start: nat): (r: Scan)
    requires i < |s| && (inner.At? ==> i < inner.end <= |s|) && depth > 0
    ensures r.At? ==> i < r.end <= |s|
    decreases |s| - i, 0
  {
    match inner
    case At(k) => ListEnd(s, k, depth, start)
    case Fail(_, _) => inner
  }

  predicate Delimiter(c: char) {
    IsWhitespace(c) || c in {'(', ')', '"', '\'', ';'}
  }

  function TokenEnd(s: string, i: nat): (r: nat)
    requires i <= |s|
    ensures i <= r <= |s| && (r < |s| ==> Delimiter(s[r]))
    ensures forall j | i <= j < r :: !Delimiter(s[j])
    decreases |s| - i
  {
    if i < |s| && !Delimiter(s[i]) then TokenEnd(s, i + 1) else i
  }

  function Find(t: string, c: char): (r: nat)
    ensures r <= |t| && (r < |t| ==> t[r] == c) && forall j | 0 <= j < r :: t[j] != c
  {
    if t == "" || t[0] == c then 0 else 1 + Find(t[1..], c)
  }

  function DigitsEnd(t: string, k: nat): (r: nat)
    requires k <= |t|
    ensures k <= r <= |t| && (r < |t| ==> !IsDigit(t[r])) && forall j | k <= j < r :: IsDigit(t[j])
    decreases |t| - k
  {
    if k < |t| && IsDigit(t[k]) then DigitsEnd(t, k + 1) else k
  }

  predicate CharAt(t: string, k: nat, chars: set<char>) {
    k < |t| && t[k] in chars
  }

  /** Digits, a point, and perhaps digits and an exponent. */
  predicate IsDecimal(t: string)
  {
    var start := if CharAt(t, 0, {'+', '-'}) then 1 else 0;
    var point := DigitsEnd(t, start);
    && point > start && CharAt(t, point, {'.'})
    && var mark := DigitsEnd(t, point + 1);
       if CharAt(t, mark, {'e', 'E'}) then
         var sign := if CharAt(t, mark + 1, {'+', '-'}) then mark + 2 else mark + 1;
         DigitsEnd(t, sign) > sign && DigitsEnd(t, sign) == |t|
       else mark == |t|
  }

  /** An atom ends before a period inside it unless it is a number. */
  function AtomEnd(s: string, i: nat): (r: nat)
    requires i < |s| && !Delimiter(s[i])
    ensures i < r <= |s|
  {
    var token := s[i..TokenEnd(s, i)];
    var period := Find(token, '.');
    if 0 < period < |token| && !IsDecimal(token) then i + period else i + |token|
  }

  // ----- Forms -----

  /** A form from `i` on, after `quote` if some quote was seen. */
  function FormEnd(s: string, i: nat, quote: Option<nat>): (r: Scan)
    requires i <= |s| && (i < |s| ==> !IsWhitespace(s[i]) && s[i] != ';') && (i == |s| ==> quote.Some?)
    ensures r.At? ==> i < r.end <= |s|
    decreases |s| - i
  {
    if i == |s| then Fail(MissingQuotedForm, quote.value)
    else if s[i] == '\'' then
      match TriviaEnd(s, i + 1)
      case At(k) => FormEnd(s, k, if quote.Some? then quote else Some(i))
      case Fail(kind, place) => Fail(kind, place)
    else if s[i] == '(' then ListEnd(s, i, 0, i)
    else if s[i] == ')' then Fail(UnexpectedCloseParen, i)
    else if s[i] == '"' then StringEnd(s, i + 1, i)
    else At(AtomEnd(s, i))
  }

  datatype Next = Form(start: nat, end: nat) | Error(kind: ScanErrorKind, place: nat) | NoMore

  /** The next form from `i` on. */
  function NextForm(s: string, i: nat): (r: Next)
    requires i <= |s|
    ensures r.Form? ==> i <= r.start < r.end <= |s|
  {
    match TriviaEnd(s, i)
    case Fail(kind, place) => Error(kind, place)
    case At(k) =>
      if k == |s| then NoMore
      else
        match FormEnd(s, k, None)
        case At(end) => Form(k, end)
        case Fail(kind, place) => Error(kind, place)
  }

  /** All forms from `i` on, up to the end or the first error. */
  function FormsFrom(s: string, i: nat): (r: seq<Next>)
    requires i <= |s|
    ensures forall k | 0 <= k < |r| :: r[k].Form? || (k == |r| - 1 && r[k].Error?)
    decreases |s| - i
  {
    match NextForm(s, i)
    case NoMore => []
    case Form(start, end) => [Form(start, end)] + FormsFrom(s, end)
    case Error(kind, place) => [Error(kind, place)]
  }

  predicate AllForms(forms: seq<Next>) {
    forms == [] || forms[|forms| - 1].Form?
  }

  // ----- The automaton that reads one character at a time -----

  datatype Mode = Code | InString | Escaped | Semicolon | InLine | InBlock | Bar
  datatype Reading = Reading(mode: Mode, depth: int)

  function Step(r: Reading, c: char): Reading
  {
    match r.mode
    case Code =>
      if c == '(' then Reading(Code, r.depth + 1)
      else if c == ')' then Reading(Code, r.depth - 1)
      else if c == '"' then Reading(InString, r.depth)
      else if c == ';' then Reading(Semicolon, r.depth)
      else r
    case InString =>
      if c == '"' then Reading(Code, r.depth) else if c == '\\' then Reading(Escaped, r.depth) else r
    case Escaped => Reading(InString, r.depth)
    case Semicolon =>
      if c == '|' then Reading(InBlock, r.depth)
      else if c in {'\r', '\n'} then Reading(Code, r.depth)
      else Reading(InLine, r.depth)
    case InLine => if c in {'\r', '\n'} then Reading(Code, r.depth) else r
    case InBlock => if c == '|' then Reading(Bar, r.depth) else r
    case Bar =>
      if c == ';' then Reading(Code, r.depth) else if c == '|' then r else Reading(InBlock, r.depth)
  }

  /** What the automaton has read of `s` between `i` and `k`. */
  function Read(r: Reading, s: string, i: nat, k: nat): Reading
    requires i <= k <= |s|
    decreases k - i
  {
    if i == k then r else Read(Step(r, s[i]), s, i + 1, k)
  }

  /** At least one parenthesis is open everywhere from `i` to `k`. */
  predicate Inside(r: Reading, s: string, i: nat, k: nat)
    requires i <= k <= |s|
    decreases k - i
  {
    r.depth >= 1 && (i < k ==> Inside(Step(r, s[i]), s, i + 1, k))
  }

  /** Only white space and comments between `i` and `k`: what is read as code is white space or begins
      a comment. */
  predicate OnlyTrivia(mode: Mode, s: string, i: nat, k: nat)
    requires i <= k <= |s|
    decreases k - i
  {
    if i == k then mode in {Code, Semicolon, InLine}
    else
      && (mode == Code ==> IsWhitespace(s[i]) || s[i] == ';')
      && OnlyTrivia(Step(Reading(mode, 0), s[i]).mode, s, i + 1, k)
  }
}
