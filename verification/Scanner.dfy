/** The resumable form scanner: a cursor that moves over the source, counting lines as it goes. */
module Scanner {
  import opened Text
  import opened Forms

  datatype FormSpan = FormSpan(byteStart: nat, byteEnd: nat, line: nat, column: nat)
  datatype ScanError = ScanError(kind: ScanErrorKind, line: nat, column: nat)
  datatype ScanPosition = ScanPosition(byte: nat, line: nat, column: nat, finished: bool)
  datatype Item = Span(span: FormSpan) | Failure(error: ScanError) | End
  datatype Validated = Count(forms: nat) | Unscannable(error: ScanError)

  function SpanOf(s: string, start: nat, end: nat): FormSpan
    requires start <= |s| && end <= |s|
  {
    FormSpan(ByteAt(s, start), ByteAt(s, end), LineAt(s, start), ColumnAt(s, start))
  }

  /** What a result of `NextForm` is reported as. */
  ghost predicate Reports(s: string, n: Next, item: Item)
  {
    match n
    case Form(start, end) =>
      start <= |s| && end <= |s| && item == Span(SpanOf(s, start, end))
    case Error(kind, place) => place <= |s| && item == Failure(ScanError(kind, LineAt(s, place), ColumnAt(s, place)))
    case NoMore => item == End
  }

  function PositionAt(s: string, at: nat, finished: bool): ScanPosition
    requires at <= |s|
  {
    ScanPosition(ByteAt(s, at), LineAt(s, at), ColumnAt(s, at), finished)
  }

  /** Moving on by one character, or by a carriage return with its line feed. */
  lemma AdvanceRecounts(s: string, i: nat)
    requires i < |s| && Whole(s, i)
    ensures var j := Advance(s, i);
            && Whole(s, j)
            && LineAt(s, j) == LineAt(s, i) + (if s[i] in {'\r', '\n'} then 1 else 0)
            && ColumnAt(s, j) == (if s[i] in {'\r', '\n'} then 1 else ColumnAt(s, i) + 1)
            && ByteAt(s, j) == ByteAt(s, i) + Utf8Len(s[i]) + (if CrLfAt(s, i) then 1 else 0)
  {
    if CrLfAt(s, i) {
      assert LineAt(s, i + 1) == LineAt(s, i) + 1 && !BreakAt(s, i + 1);
      assert ByteAt(s, i + 1) == ByteAt(s, i) + 1;
    }
  }

  /** Two positions never have the same byte offset. */
  lemma {:induction false} BytesGrow(s: string, i: nat, j: nat)
    requires i < j <= |s|
    ensures ByteAt(s, i) < ByteAt(s, j)
    decreases j
  {
    if i < j - 1 {
      BytesGrow(s, i, j - 1);
    }
  }

  class Cursor {
    const source: string
    /** The position in characters; `byte` is the same position in bytes. */
    var at: nat
    var byte: nat
    var line: nat
    var column: nat

    ghost predicate Valid()
      reads this
    {
      && Whole(source, at)
      && byte == ByteAt(source, at) && line == LineAt(source, at) && column == ColumnAt(source, at)
    }

    constructor (source: string)
      ensures Valid() && this.source == source && at == 0
    {
      this.source := source;
      at, byte, line, column := 0, 0, 1, 1;
    }

    constructor At(source: string, at: nat, position: ScanPosition)
      ensures this.source == source && this.at == at
      ensures byte == position.byte && line == position.line && column == position.column
    {
      this.source, this.at := source, at;
      byte, line, column := position.byte, position.line, position.column;
    }

    /** The cursor is where the scan ends, or the error is about where the scan fails. */
    ghost predicate Reached(e: Scan, r: Option<ScanError>)
      reads this
    {
      match e
      case At(k) => r == None && at == k
      case Fail(kind, place) =>
        place <= |source| && r == Some(ScanError(kind, LineAt(source, place), ColumnAt(source, place)))
    }

    method Step()
      requires Valid()
      modifies this
      ensures Valid() && at == Forms.Advance(source, old(at))
    {
      if at < |source| {
        AdvanceRecounts(source, at);
        var c := source[at];
        if c == '\r' {
          at, byte := at + 1, byte + 1;
          if at < |source| && source[at] == '\n' {
            at, byte := at + 1, byte + 1;
          }
          line, column := line + 1, 1;
        } else if c == '\n' {
          at, byte, line, column := at + 1, byte + 1, line + 1, 1;
        } else {
          at, byte, column := at + 1, byte + Utf8Len(c), column + 1;
        }
      }
    }

    method Peek() returns (c: Option<char>)
      requires Valid()
      ensures c == if at < |source| then Some(source[at]) else None
    {
      return if at < |source| then Some(source[at]) else None;
    }

    method StartsWith(a: char, b: char) returns (r: bool)
      requires Valid()
      ensures r == PairAt(source, at, a, b)
    {
      return at + 1 < |source| && source[at] == a && source[at + 1] == b;
    }

    method SkipComment() returns (r: Option<ScanError>)
      requires Valid() && at < |source| && source[at] == ';'
      modifies this
      ensures Valid() && Reached(CommentEnd(source, old(at)), r)
      ensures r == None ==> at > old(at)
    {
      ghost var begin := at;
      var block := StartsWith(';', '|');
      if block {
        var startLine, startColumn := line, column;
        Step();
        Step();
        var closed := StartsWith('|', ';');
        while !closed
          invariant Valid() && at > begin && closed == PairAt(source, at, '|', ';')
          invariant BlockEnd(source, at, begin) == CommentEnd(source, begin)
          decreases |source| - at
        {
          if at == |source| {
            return Some(ScanError(UnterminatedBlockComment, startLine, startColumn));
          }
          Step();
          closed := StartsWith('|', ';');
        }
        Step();
        Step();
      } else {
        while at < |source| && source[at] !in {'\r', '\n'}
          invariant Valid() && begin <= at && LineEnd(source, at) == LineEnd(source, begin)
          invariant at == begin ==> source[at] == ';'
          decreases |source| - at
        {
          Step();
        }
      }
      return None;
    }

    method SkipTrivia() returns (r: Option<ScanError>)
      requires Valid()
      modifies this
      ensures Valid() && Reached(TriviaEnd(source, old(at)), r)
    {
      ghost var begin := at;
      while true
        invariant Valid() && begin <= at && TriviaEnd(source, at) == TriviaEnd(source, begin)
        decreases |source| - at
      {
        ghost var turn := at;
        while at < |source| && IsWhitespace(source[at])
          invariant Valid() && turn <= at && SpaceEnd(source, at) == SpaceEnd(source, turn)
          decreases |source| - at
        {
          Step();
        }
        if at == |source| || source[at] != ';' {
          return None;
        }
        r := SkipComment();
        if r != None {
          return;
        }
      }
    }

    method ScanString() returns (r: Option<ScanError>)
      requires Valid() && at < |source| && source[at] == '"'
      modifies this
      ensures Valid() && Reached(StringEnd(source, old(at) + 1, old(at)), r)
      ensures r == None ==> at > old(at)
    {
      ghost var begin := at;
      var startLine, startColumn := line, column;
      Step();
      while true
        invariant Valid() && at > begin
        invariant StringEnd(source, at, begin) == StringEnd(source, begin + 1, begin)
        decreases |source| - at
      {
        var c := Peek();
        if c == Some('"') {
          Step();
          return None;
        } else if c == Some('\\') {
          Step();
          if at == |source| {
            return Some(ScanError(UnterminatedString, startLine, startColumn));
          }
          Step();
        } else if c == None {
          return Some(ScanError(UnterminatedString, startLine, startColumn));
        } else {
          Step();
        }
      }
    }

    method ScanList() returns (r: Option<ScanError>)
      requires Valid() && at < |source| && source[at] == '('
      modifies this
      ensures Valid() && Reached(ListEnd(source, old(at), 0, old(at)), r)
    {
      ghost var begin := at;
      var startLine, startColumn := line, column;
      var depth: nat := 0;
      while true
        invariant Valid() && at >= begin && (depth == 0 ==> at < |source| && source[at] == '(')
        invariant ListEnd(source, at, depth, begin) == ListEnd(source, begin, 0, begin)
        decreases |source| - at
      {
        var c := Peek();
        if c == Some('(') {
          depth := depth + 1;
          Step();
        } else if c == Some(')') {
          depth := depth - 1;
          Step();
          if depth == 0 {
            return None;
          }
        } else if c == Some('"') {
          r := ScanString();
          if r != None {
            return;
          }
        } else if c == Some(';') {
          r := SkipComment();
          if r != None {
            return;
          }
        } else if c == None {
          return Some(ScanError(UnterminatedList, startLine, startColumn));
        } else {
          Step();
        }
      }
    }

    method ScanAtom()
      requires Valid() && at < |source| && !Delimiter(source[at])
      modifies this
      ensures Valid() && at == AtomEnd(source, old(at))
    {
      var token := source[at..TokenEnd(source, at)];
      var count := |token|;
      var period := Find(token, '.');
      if 0 < period < |token| {
        var number := DecimalToken(token);
        if !number {
          count := period;
        }
      }
      var end := at + count;
      while at < end
        invariant Valid() && old(at) <= at <= end
      {
        Step();
      }
    }

    /** A form, with the quotes before it. */
    method ScanForm() returns (r: Option<ScanError>)
      requires Valid() && at < |source| && !IsWhitespace(source[at]) && source[at] != ';'
      modifies this
      ensures Valid() && Reached(FormEnd(source, old(at), None), r)
    {
      ghost var begin := at;
      var quoted, quoteLine, quoteColumn := false, 0, 0;
      ghost var quote: Option<nat> := None;
      while at < |source| && source[at] == '\''
        invariant Valid() && (at < |source| ==> !IsWhitespace(source[at]) && source[at] != ';')
        invariant quoted == quote.Some? && (at == |source| ==> quoted)
        invariant quoted ==> quote.value <= |source| && quoteLine == LineAt(source, quote.value)
                             && quoteColumn == ColumnAt(source, quote.value)
        invariant FormEnd(source, at, quote) == FormEnd(source, begin, None)
        decreases |source| - at
      {
        if !quoted {
          quoted, quoteLine, quoteColumn, quote := true, line, column, Some(at);
        }
        Step();
        r := SkipTrivia();
        if r != None {
          return;
        }
      }
      if at == |source| {
        return Some(ScanError(MissingQuotedForm, quoteLine, quoteColumn));
      }
      match source[at]
      case '(' => r := ScanList();
      case ')' => r := Some(ScanError(UnexpectedCloseParen, line, column));
      case '"' => r := ScanString();
      case _ =>
        ScanAtom();
        r := None;
    }
  }

  /** Whether a token is a decimal number. */
  method DecimalToken(t: string) returns (r: bool)
    ensures r == IsDecimal(t)
  {
    var k := if CharAt(t, 0, {'+', '-'}) then 1 else 0;
    var start := k;
    k := SkipDigits(t, k);
    if k == start || !CharAt(t, k, {'.'}) {
      return false;
    }
    k := SkipDigits(t, k + 1);
    if CharAt(t, k, {'e', 'E'}) {
      k := k + 1;
      if CharAt(t, k, {'+', '-'}) {
        k := k + 1;
      }
      start := k;
      k := SkipDigits(t, k);
      if k == start {
        return false;
      }
    }
    return k == |t|;
  }

  method SkipDigits(t: string, from: nat) returns (k: nat)
    requires from <= |t|
    ensures k == DigitsEnd(t, from)
  {
    k := from;
    while k < |t| && IsDigit(t[k])
      invariant from <= k <= |t| && DigitsEnd(t, k) == DigitsEnd(t, from)
    {
      k := k + 1;
    }
  }

  class FormScanner {
    const cursor: Cursor
    var finished: bool

    ghost predicate Valid()
      reads this, cursor
    {
      cursor.Valid()
    }

    /** What is still to be reported. */
    ghost function Left(): seq<Next>
      reads this, cursor
      requires Valid()
    {
      if finished then [] else FormsFrom(cursor.source, cursor.at)
    }

    constructor (source: string)
      ensures Valid() && fresh(cursor) && cursor.source == source && Left() == FormsFrom(source, 0)
    {
      cursor := new Cursor(source);
      finished := false;
    }

    constructor Continue(cursor: Cursor, finished: bool)
      ensures this.cursor == cursor && this.finished == finished
    {
      this.cursor, this.finished := cursor, finished;
    }

    method Position() returns (p: ScanPosition)
      requires Valid()
      ensures p == PositionAt(cursor.source, cursor.at, finished)
    {
      return ScanPosition(cursor.byte, cursor.line, cursor.column, finished);
    }

    /** Reports the first of what is left. */
    method Next() returns (item: Item)
      requires Valid()
      modifies this, cursor
      ensures Valid()
      ensures old(Left()) == [] ==> item == End && Left() == []
      ensures old(Left()) != [] ==> Reports(cursor.source, old(Left())[0], item) && Left() == old(Left())[1..]
      ensures old(Left()) != [] && old(Left())[0].Form? ==> !finished && cursor.at == old(Left())[0].end
    {
      if finished {
        return End;
      }
      var error := cursor.SkipTrivia();
      if error.Some? {
        finished := true;
        return Failure(error.value);
      }
      if cursor.at == |cursor.source| {
        finished := true;
        return End;
      }
      ghost var start := cursor.at;
      var byteStart, line, column := cursor.byte, cursor.line, cursor.column;
      error := cursor.ScanForm();
      if error.Some? {
        finished := true;
        return Failure(error.value);
      }
      return Span(FormSpan(byteStart, cursor.byte, line, column));
    }
  }

  /** Goes on from a saved position, unless it is outside the source or inside a character. */
  method Resume(source: string, position: ScanPosition) returns (scanner: FormScanner?)
    ensures scanner == null <==> forall k | 0 <= k <= |source| :: ByteAt(source, k) != position.byte
    ensures scanner != null ==> fresh(scanner) && fresh(scanner.cursor) && scanner.cursor.source == source
    ensures forall at: nat, finished |
              at <= |source| && Whole(source, at) && position == PositionAt(source, at, finished) ::
              scanner != null && scanner.Valid() && scanner.cursor.at == at && scanner.finished == finished
  {
    var at := 0;
    while at <= |source| && ByteAt(source, at) != position.byte
      invariant at <= |source| + 1 && forall k | 0 <= k < at :: ByteAt(source, k) != position.byte
    {
      at := at + 1;
    }
    if at > |source| {
      return null;
    }
    var cursor := new Cursor.At(source, at, position);
    scanner := new FormScanner.Continue(cursor, position.finished);
    forall k: nat, finished | k <= |source| && Whole(source, k) && position == PositionAt(source, k, finished)
      ensures scanner.Valid() && scanner.cursor.at == k && scanner.finished == finished
    {
      if at < k {
        BytesGrow(source, at, k);
      }
    }
  }

  /** The number of forms in the source, or its first error. */
  method Validate(source: string) returns (r: Validated)
    ensures var forms := FormsFrom(source, 0);
            if AllForms(forms) then r == Count(|forms|)
            else r.Unscannable? && Reports(source, forms[|forms| - 1], Failure(r.error))
  {
    var scanner := new FormScanner(source);
    ghost var forms := FormsFrom(source, 0);
    var count := 0;
    while true
      invariant scanner.Valid() && scanner.cursor.source == source && fresh(scanner) && fresh(scanner.cursor)
      invariant count <= |forms| && scanner.Left() == forms[count..]
      invariant forall k | 0 <= k < count :: forms[k].Form?
      decreases |forms| - count
    {
      var item := scanner.Next();
      match item
      case End => return Count(count);
      case Failure(error) => return Unscannable(error);
      case Span(_) => count := count + 1;
    }
  }
}
