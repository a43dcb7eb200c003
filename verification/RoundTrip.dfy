/** Which values read back as themselves from what is printed for them, at any width. */
module RoundTrip {
  import opened Text
  import opened Layout
  import opened Printer
  import opened Values
  import opened Reader

  /** A printable value has a text of its own: it is not nested too deeply, no symbol is spelled like
      the truth value or an opaque value, no list like an entity, entity handles and object labels
      are in the form that is printed. */
  predicate Exact(v: Value, depth: nat)
  {
    match v
    case VSymbol(pieces) =>
      var name := Flatten(pieces);
      name != "T" && name != "t" && !("#<" <= name)
    case VList(items) => depth < MAX_VALUE_DEPTH && !IsEntityCall(items) && ItemsExact(items, depth + 1)
    case VEntity(handle) => handle.Some? ==> ValidHandle(handle.value) && Upper(handle.value) == handle.value
    case VOpaque(Object(payload)) => payload.Some? ==> ValidLabel(payload.value)
    case _ => true
  }

  predicate ItemsExact(items: Items, depth: nat)
  {
    match items
    case Close => true
    case Dotted(t) => Exact(t, depth)
    case More(v, rest) => Exact(v, depth) && ItemsExact(rest, depth)
  }

  predicate Delimited(tail: string) {
    tail == "" || !AtomChar(tail[0])
  }

  // ----- Rendering in sequence -----

  lemma JoinTwice(a: Rendered, b: Rendered, c: Rendered)
    ensures Join(a, Join(b, c)) == Join(Join(a, b), c)
  {
    Regroup(a.text, b.text, c.text);
  }

  /** What the first part of a document prints. */
  function First(w: char -> nat, d: Doc, flat: bool, column: nat): Rendered
    requires d != Doc.Nil
  {
    match d
    case Piece(t, _) => Rendered(t, column + Measure(w, t))
    case Break(f, indent, _) =>
      if flat then Rendered(f, column + Measure(w, f)) else Rendered("\n" + Spaces(indent), indent)
    case Group(kind, body, _) => Render(w, body, ChooseFlat(w, kind, body, column), column)
  }

  lemma RenderFirst(w: char -> nat, d: Doc, flat: bool, column: nat)
    requires d != Doc.Nil
    ensures var first := First(w, d, flat, column);
            Render(w, d, flat, column) == Join(first, Render(w, d.rest, flat, first.column))
  {
  }

  lemma {:induction false} RenderSeq(w: char -> nat, a: Doc, b: Doc, flat: bool, column: nat)
    ensures var ra := Render(w, a, flat, column);
            Render(w, SeqDoc(a, b), flat, column) == Join(ra, Render(w, b, flat, ra.column))
    decreases a
  {
    if a == Doc.Nil {
      assert "" + Render(w, b, flat, column).text == Render(w, b, flat, column).text;
    } else {
      var first := First(w, a, flat, column);
      var ra := Render(w, a.rest, flat, first.column);
      RenderSeq(w, a.rest, b, flat, first.column);
      RenderFirst(w, a, flat, column);
      RenderFirst(w, SeqDoc(a, b), flat, column);
      JoinTwice(first, ra, Render(w, b, flat, ra.column));
    }
  }

  /** Documents of plain text look the same everywhere. */
  predicate TextOnly(d: Doc) {
    d.Nil? || (d.Piece? && TextOnly(d.rest))
  }

  lemma {:induction false} RenderText(w: char -> nat, d: Doc, flat: bool, column: nat)
    requires TextOnly(d)
    ensures Render(w, d, flat, column).text == FlatText(d)
    decreases d
  {
    if d.Piece? {
      RenderText(w, d.rest, flat, column + Measure(w, d.text));
    }
  }

  // ----- Whitespace and tokens -----

  lemma {:induction false} SkipAll(space: string, s: string)
    requires forall c | c in space :: IsWhitespace(c)
    ensures SkipWhitespace(space + s) == SkipWhitespace(s)
  {
    if space == "" {
      assert space + s == s;
    } else {
      assert space[0] in space && (space + s)[1..] == space[1..] + s;
      SkipAll(space[1..], s);
    }
  }

  lemma {:induction false} AtomLenIs(token: string, tail: string)
    requires (forall c | c in token :: AtomChar(c)) && Delimited(tail)
    ensures AtomLen(token + tail) == |token|
  {
    if token == "" {
      assert token + tail == tail;
    } else {
      assert token[0] in token && (token + tail)[0] == token[0] && (token + tail)[1..] == token[1..] + tail;
      AtomLenIs(token[1..], tail);
    }
  }

  /** A token that begins like an atom is read as an atom. */
  lemma ReadToken(token: string, tail: string)
    requires token != "" && (forall c | c in token :: AtomChar(c)) && Delimited(tail)
    requires token[0] != '"' && !("#<" <= token)
    ensures ReadValue(token + tail) == match Classify(token)
                                       case None => None
                                       case Some(v) => Some(Parse(v, tail))
  {
    var s := token + tail;
    AtomLenIs(token, tail);
    assert token[0] in token && s[0] == token[0];
    assert s[..|token|] == token && s[|token|..] == tail;
    assert |token| >= 2 ==> token[..2] == s[..2];
  }

  // ----- Integers -----

  lemma {:induction false} DecimalRead(n: nat)
    ensures DigitsValue(Decimal(n)) == n
  {
    var s := Decimal(n);
    if n < 10 {
      assert s[..0] == "" && DigitsValue("") == 0;
    } else {
      DecimalRead(n / 10);
      assert s[..|s| - 1] == Decimal(n / 10);
    }
  }

  lemma IntegerRead(i: i64)
    ensures Classify(Show(i)) == Some(VInteger(i))
    ensures Show(i) != "" && (forall c | c in Show(i) :: c == '-' || IsDigit(c))
  {
    ShownNumber(i);
    var c := Unsigned(Show(i))[0];
    assert c in Unsigned(Show(i)) && c in Show(i);
    NotWord(Show(i), c);
  }

  lemma ShownNumber(i: i64)
    ensures IsInteger(Show(i)) && Number(Show(i)) == i
    ensures forall c | c in Show(i) :: c == '-' || IsDigit(c)
  {
    var m: nat := if i < 0 then -(i as int) else i;
    var t := Show(i);
    DecimalRead(m);
    assert Decimal(m)[0] in Decimal(m);
    if i < 0 {
      assert t[0] == '-' && t[1..] == Decimal(m);
    }
    assert Unsigned(t) == Decimal(m);
  }

  /** A token with a digit is neither nil nor the truth value. */
  lemma NotWord(t: string, c: char)
    requires c in t && (IsDigit(c) || c == '\\')
    ensures !SameIgnoringCase(t, "nil") && !SameIgnoringCase(t, "t")
  {
    var i :| 0 <= i < |t| && t[i] == c;
    assert Upper(t)[i] == c;
    assert Upper("nil") == "NIL" && Upper("t") == "T";
  }

  // ----- Reals -----

  predicate RealChar(c: char) {
    IsDigit(c) || c in {'+', '-', '.', 'e', 'E'}
  }

  lemma RealRead(t: RealText)
    ensures Classify(t) == Some(VReal(t))
  {
    RealChars(t);
    var u := Unsigned(t);
    var p := IndexOf(u, {'.'});
    assert u[0] == u[..p][0] && u[..p][0] in u[..p];
    assert u[0] in t;
    NotWord(t, u[0]);
    assert u[p] == '.' && u[p] in u;
  }

  lemma RealChars(t: RealText)
    ensures t != "" && (forall c | c in t :: RealChar(c)) && t[0] != '.'
  {
    var u := Unsigned(t);
    var p := IndexOf(u, {'.'});
    var rest := u[p + 1..];
    var e := IndexOf(rest, {'e', 'E'});
    assert u[0] == u[..p][0] && u[..p][0] in u[..p];
    FractionChars(rest, e);
    assert u == u[..p] + [u[p]] + rest;
    if u != t {
      assert t == [t[0]] + u;
    }
  }

  lemma FractionChars(rest: string, e: nat)
    requires e <= |rest| && AllDigits(rest[..e])
    requires e < |rest| ==> rest[e] in {'e', 'E'} && IsInteger(rest[e + 1..])
    ensures forall c | c in rest :: RealChar(c)
  {
    if e < |rest| {
      var x := rest[e + 1..];
      assert x == [x[0]] + x[1..];
      assert rest == rest[..e] + [rest[e]] + x;
    } else {
      assert rest[..e] == rest;
    }
  }

  // ----- Symbols -----

  lemma {:induction false} EscapedChars(name: string)
    requires forall c | c in name :: ValidSymbolChar(c)
    ensures forall c | c in EscapeSymbol(name) :: ValidSymbolChar(c)
    ensures name != "" ==> EscapeSymbol(name) != "" && EscapeSymbol(name)[0] == name[0]
    ensures "#<" <= EscapeSymbol(name) <==> "#<" <= name
  {
    if name != "" {
      assert name[0] in name;
      forall c | c in name[1..]
        ensures ValidSymbolChar(c)
      {
        assert c in name;
      }
      EscapedChars(name[1..]);
      var e := EscapeSymbol(name);
      if name[0] == '#' {
        assert e == "#" + EscapeSymbol(name[1..]);
        assert |name| >= 2 ==> name[1] == name[1..][0] && e[1] == EscapeSymbol(name[1..])[0];
        assert |name| == 1 ==> EscapeSymbol(name[1..]) == "";
      }
    } else {
      assert !("#<" <= name);
    }
  }

  lemma {:induction false} DecodeEscaped(name: string)
    ensures DecodeSymbol(EscapeSymbol(name)) == Some(name)
  {
    if name != "" {
      DecodeEscaped(name[1..]);
      var e := EscapeSymbol(name);
      if name[0] == '\\' {
        assert e[2..] == EscapeSymbol(name[1..]);
        assert "\\" + name[1..] == name;
      } else {
        assert e[1..] == EscapeSymbol(name[1..]);
        assert [name[0]] + name[1..] == name;
      }
    }
  }

  lemma {:induction false} EscapedSame(name: string)
    ensures '\\' in name ==> '\\' in EscapeSymbol(name)
    ensures '\\' !in name ==> EscapeSymbol(name) == name
  {
    if name != "" {
      EscapedSame(name[1..]);
    }
  }

  lemma {:induction false} DigitsStay(s: SymbolState, digits: string)
    requires s.number == IntegerDigits && AllDigits(digits)
    ensures PushSymbol(s, digits).number == IntegerDigits
    decreases |digits|
  {
    if digits != "" {
      assert digits[0] in digits;
      DigitsStay(SymbolState(AdvanceNumber(s.number, digits[0]), AdvanceNil(s.nilState, digits[0])), digits[1..]);
    }
  }

  lemma IntegerIsNumber(name: string)
    requires IsInteger(name)
    ensures PushSymbol(EmptySymbol, name).number == IntegerDigits
  {
    var u := Unsigned(name);
    assert u[0] in u;
    assert name[0] in name;
    var s1 := SymbolState(AdvanceNumber(NumberStart, name[0]), AdvanceNil(NilStart, name[0]));
    if u == name {
      DigitsStay(s1, name[1..]);
    } else {
      var s2 := SymbolState(AdvanceNumber(s1.number, u[0]), AdvanceNil(s1.nilState, u[0]));
      DigitsStay(s2, u[1..]);
    }
  }

  lemma NilIsNil(name: string)
    requires SameIgnoringCase(name, "nil")
    ensures PushSymbol(EmptySymbol, name).nilState == IsNil
  {
    assert Upper("nil") == "NIL" && |name| == 3;
    assert ToUpper(name[0]) == Upper(name)[0] == 'N';
    assert ToUpper(name[1]) == Upper(name)[1] == 'I';
    assert ToUpper(name[2]) == Upper(name)[2] == 'L';
    var s1 := SymbolState(AdvanceNumber(NumberStart, name[0]), AdvanceNil(NilStart, name[0]));
    var s2 := SymbolState(AdvanceNumber(s1.number, name[1]), AdvanceNil(s1.nilState, name[1]));
    assert s1.nilState == N && s2.nilState == Ni && AdvanceNil(Ni, name[2]) == IsNil;
    assert PushSymbol(EmptySymbol, name) == PushSymbol(s1, name[1..]);
    assert PushSymbol(s1, name[1..]) == PushSymbol(s2, name[1..][1..]);
    assert name[1..][1..] == [name[2]] && [name[2]][1..] == "";
    var s3 := SymbolState(AdvanceNumber(s2.number, name[2]), AdvanceNil(s2.nilState, name[2]));
    assert PushSymbol(s2, [name[2]]) == PushSymbol(s3, "");
  }

  /** A symbol that the printer accepts is read as itself, except for the truth value. */
  lemma SymbolRead(name: string)
    requires name != "" && (forall c | c in name :: ValidSymbolChar(c))
    requires SymbolComplete(PushSymbol(EmptySymbol, name))
    ensures Classify(EscapeSymbol(name)) == Some(if name == "T" || name == "t" then VTrue else VSymbol([name]))
  {
    var t := EscapeSymbol(name);
    EscapedSame(name);
    EscapedChars(name);
    DecodeEscaped(name);
    if '\\' in name {
      NotWord(t, '\\');
      NotInteger(t);
    } else {
      if SameIgnoringCase(name, "nil") {
        NilIsNil(name);
      }
      if IsInteger(name) {
        IntegerIsNumber(name);
      }
      TruthName(name);
    }
    NoPoint(t);
  }

  lemma TruthName(name: string)
    ensures SameIgnoringCase(name, "t") <==> name == "T" || name == "t"
  {
    assert Upper("t") == "T";
    if |name| == 1 {
      assert Upper(name) == [ToUpper(name[0])];
      assert name == [name[0]];
    }
  }

  lemma NotInteger(t: string)
    requires '\\' in t
    ensures !IsInteger(t)
  {
    var i :| 0 <= i < |t| && t[i] == '\\';
    if Unsigned(t) != t {
      assert Unsigned(t)[i - 1] == '\\';
    }
    assert '\\' in Unsigned(t);
  }

  lemma NoPoint(t: string)
    requires forall c | c in t :: ValidSymbolChar(c)
    ensures !IsReal(t)
  {
    var u := Unsigned(t);
    var p := IndexOf(u, {'.'});
    assert forall i | 0 <= i < |u| :: u[i] in t;
  }

  // ----- Strings -----

  lemma {:induction false} StringRead(text: string, tail: string)
    ensures ReadString(Escape(text) + "\"" + tail) == Some(TextParse(text, tail))
  {
    if text == "" {
      assert (Escape(text) + "\"" + tail)[1..] == tail;
    } else {
      var c := text[0];
      var rest := Escape(text[1..]) + "\"" + tail;
      StringRead(text[1..], tail);
      assert Escape(text) + "\"" + tail == EscapeChar(c) + rest;
      CharRead(c, rest);
      assert [c] + text[1..] == text;
    }
  }

  lemma CharRead(c: char, rest: string)
    ensures ReadString(EscapeChar(c) + rest) == Prepend([c], ReadString(rest))
  {
    var s := EscapeChar(c) + rest;
    if c in {'"', '\\', '\U{1b}', '\n', '\r', '\t'} {
      assert s[1..][1..] == rest;
    } else if IsControl(c) {
      OctalRead(c);
      assert s[1..][3..] == rest;
      assert s[1] == OctalDigit(c as int / 64) && s[2] == OctalDigit(c as int / 8) && s[3] == OctalDigit(c as int);
    } else {
      assert s[1..] == rest;
    }
  }

  lemma OctalRead(c: char)
    requires IsControl(c)
    ensures var a, b, d := OctalDigit(c as int / 64), OctalDigit(c as int / 8), OctalDigit(c as int);
            IsOctal(a) && IsOctal(b) && IsOctal(d) && OctalValue(a, b, d) as char == c
  {
  }

  // ----- One value -----

  /** What reading a value back must give: the value itself if its text is its own, and otherwise
      nothing or another value. */
  predicate ReadsBack(r: Option<Parse>, v: Value, exact: bool, tail: string) {
    if exact then r == Some(Parse(Plain(v), tail)) else r.None? || r.value.value != Plain(v)
  }

  predicate ItemsReadBack(r: Option<ItemsParse>, items: Items, exact: bool, tail: string) {
    if exact then r == Some(ItemsParse(PlainItems(items), tail)) else r.None? || r.value.items != PlainItems(items)
  }

  /** Where a value can begin: not at whitespace, the end of a list, or a dot. */
  predicate BeginsValue(text: string) {
    text != "" && !IsWhitespace(text[0]) && text[0] != ')' && text[0] != '.'
  }

  lemma {:induction false} SymbolText(pieces: seq<string>)
    requires SymbolChunksOk(pieces)
    ensures TextOnly(SymbolDoc(pieces)) && FlatText(SymbolDoc(pieces)) == EscapeSymbol(Flatten(pieces))
    ensures forall c | c in Flatten(pieces) :: ValidSymbolChar(c)
  {
    if pieces != [] {
      SymbolText(pieces[1..]);
      EscapeSymbolConcat(pieces[0], Flatten(pieces[1..]));
      if pieces[0] == "" {
        assert "" + Flatten(pieces[1..]) == Flatten(pieces[1..]);
      }
    }
  }

  lemma {:induction false} StringText(pieces: seq<string>)
    ensures TextOnly(StringDoc(pieces)) && FlatText(StringDoc(pieces)) == Escape(Flatten(pieces)) + "\""
  {
    if pieces == [] {
      assert "\"" + FlatText(Doc.Nil) == "\"";
    } else {
      StringText(pieces[1..]);
      EscapeConcat(pieces[0], Flatten(pieces[1..]));
      Regroup(Escape(pieces[0]), Escape(Flatten(pieces[1..])), "\"");
    }
  }

  lemma {:induction false} PiecesText(texts: seq<string>)
    ensures TextOnly(PiecesDoc(texts)) && FlatText(PiecesDoc(texts)) == Flatten(texts)
  {
    if texts != [] {
      PiecesText(texts[1..]);
    }
  }

  lemma FlattenThree(a: string, b: string, c: string)
    ensures Flatten([a, b, c]) == a + b + c
  {
    assert [a, b, c][1..] == [b, c] && [b, c][1..] == [c] && [c][1..] == [];
    assert Flatten([c]) == c;
    assert Flatten([b, c]) == b + c;
  }

  lemma FlattenFive(a: string, b: string, c: string, d: string, e: string)
    ensures Flatten([a, b, c, d, e]) == a + b + c + d + e
  {
    assert [a, b, c, d, e][1..] == [b, c, d, e] && [b, c, d, e][1..] == [c, d, e];
    FlattenThree(c, d, e);
    assert Flatten([b, c, d, e]) == b + (c + d + e);
  }

  /** The text of an opaque value. */
  function OpaqueShown(name: string, payload: Option<string>): string {
    "#<" + name + (if payload.Some? then " " + payload.value else "") + ">"
  }

  lemma OpaqueDocText(w: char -> nat, name: string, payload: Option<string>, flat: bool, column: nat)
    ensures Render(w, OpaqueDoc(name, payload), flat, column).text == OpaqueShown(name, payload)
  {
    var texts := ["#<", name] + (if payload.Some? then [" ", payload.value] else []) + [">"];
    PiecesText(texts);
    RenderText(w, OpaqueDoc(name, payload), flat, column);
    if payload.Some? {
      assert texts == ["#<", name, " ", payload.value, ">"];
      FlattenFive("#<", name, " ", payload.value, ">");
      assert "#<" + name + " " + payload.value + ">" == OpaqueShown(name, payload);
    } else {
      assert texts == ["#<", name, ">"];
      FlattenThree("#<", name, ">");
      assert "#<" + name + "" + ">" == "#<" + name + ">";
    }
  }

  lemma {:induction false} IndexFound(a: string, c: char, b: string)
    requires c !in a
    ensures IndexOf(a + [c] + b, {c}) == |a|
  {
    if a != "" {
      assert (a + [c] + b)[1..] == a[1..] + [c] + b;
      IndexFound(a[1..], c, b);
    }
  }

  lemma {:induction false} IndexMissing(a: string, c: char)
    requires c !in a
    ensures IndexOf(a, {c}) == |a|
  {
    if a != "" {
      IndexMissing(a[1..], c);
    }
  }

  /** What an opaque text holds between its marks. */
  lemma OpaqueRead(content: string, tail: string)
    requires '>' !in content
    ensures ReadValue("#<" + content + ">" + tail) ==
            match OpaqueValue(content)
            case None => None
            case Some(v) => Some(Parse(v, tail))
  {
    var s := "#<" + content + ">" + tail;
    assert s[..2] == "#<" && s[2..] == content + ['>'] + tail;
    IndexFound(content, '>', tail);
    assert s[2..][..|content|] == content && s[2..][|content| + 1..] == tail;
  }

  lemma NamesAreWords(kind: OpaqueKind)
    ensures ' ' !in OpaqueName(kind) && '>' !in OpaqueName(kind)
  {
  }

  lemma NamesDiffer(kind: OpaqueKind)
    requires LabelOf(kind) == None
    ensures NamedValue(OpaqueName(kind)) == Some(VOpaque(if kind.Object? then Object(None) else kind))
  {
  }

  lemma NameReads(kind: OpaqueKind)
    requires LabelOf(kind) == None
    ensures OpaqueValue(OpaqueName(kind)) == Some(VOpaque(if kind.Object? then Object(None) else kind))
    ensures '>' !in OpaqueName(kind)
  {
    NamesAreWords(kind);
    NamesDiffer(kind);
    var name := OpaqueName(kind);
    IndexMissing(name, ' ');
    assert name[..|name|] == name;
  }

  lemma LabelReads(payload: string)
    requires payload != "" && forall c | c in payload :: LabelChar(c)
    ensures OpaqueValue("Object" + " " + payload) == Some(VOpaque(Object(Some(payload))))
    ensures '>' !in "Object" + " " + payload
  {
    var content := "Object" + " " + payload;
    IndexFound("Object", ' ', payload);
    assert content == "Object" + [' '] + payload;
    assert content[..6] == "Object" && content[7..] == payload;
  }

  lemma OpaqueReads(kind: OpaqueKind, tail: string)
    ensures ReadValue(OpaqueShown(OpaqueName(kind), LabelOf(kind)) + tail) ==
            Some(Parse(VOpaque(if kind.Object? then Object(LabelOf(kind)) else kind), tail))
  {
    var name, payload := OpaqueName(kind), LabelOf(kind);
    if payload.Some? {
      LabelReads(payload.value);
      OpaqueRead(name + " " + payload.value, tail);
      assert "#<" + (name + " " + payload.value) + ">" == OpaqueShown(name, payload);
    } else {
      NameReads(kind);
      OpaqueRead(name, tail);
      assert "#<" + name + "" + ">" == "#<" + name + ">";
    }
  }

  lemma NoEntityRead(tail: string)
    ensures ReadValue(OpaqueShown("Entity", None) + tail) == Some(Parse(VEntity(None), tail))
  {
    IndexMissing("Entity", ' ');
    OpaqueRead("Entity", tail);
    assert "#<" + "Entity" + "" + ">" == "#<" + "Entity" + ">";
  }

  lemma TextOfOne(w: char -> nat, t: string, flat: bool, column: nat)
    ensures Render(w, Piece(t, Doc.Nil), flat, column).text == t
  {
    assert Render(w, Doc.Nil, flat, column + Measure(w, t)).text == "";
  }

  lemma WordRead(word: string, tail: string)
    requires word in {"nil", "T"} && Delimited(tail)
    ensures ReadValue(word + tail) == Some(Parse(if word == "T" then VTrue else VNil, tail))
  {
    ReadToken(word, tail);
    assert Upper("nil") == "NIL" && Upper("T") == "T" && Upper("t") == "T";
  }

  lemma SymbolReads(w: char -> nat, pieces: seq<string>, flat: bool, column: nat, tail: string)
    requires Printable(VSymbol(pieces), 0) && Delimited(tail)
    ensures var text := Render(w, SymbolDoc(pieces), flat, column).text;
            BeginsValue(text) && ReadsBack(ReadValue(text + tail), VSymbol(pieces), Exact(VSymbol(pieces), 0), tail)
  {
    var name := Flatten(pieces);
    SymbolText(pieces);
    RenderText(w, SymbolDoc(pieces), flat, column);
    var t := EscapeSymbol(name);
    EscapedChars(name);
    SymbolRead(name);
    assert t[0] == name[0] && name[0] in name;
    if "#<" <= name {
      var s := t + tail;
      assert s[..2] == "#<";
    } else {
      assert forall c | c in t :: AtomChar(c);
      ReadToken(t, tail);
    }
  }

  lemma StringShown(w: char -> nat, pieces: seq<string>, flat: bool, column: nat)
    ensures Render(w, DocOf(VString(pieces), 0), flat, column).text == "\"" + (Escape(Flatten(pieces)) + "\"")
  {
    StringText(pieces);
    RenderText(w, DocOf(VString(pieces), 0), flat, column);
  }

  lemma StringReads(w: char -> nat, pieces: seq<string>, flat: bool, column: nat, tail: string)
    ensures var text := Render(w, DocOf(VString(pieces), 0), flat, column).text;
            BeginsValue(text) && ReadValue(text + tail) == Some(Parse(VString([Flatten(pieces)]), tail))
  {
    StringShown(w, pieces, flat, column);
    var t := Flatten(pieces);
    var s := "\"" + (Escape(t) + "\"") + tail;
    assert s[1..] == Escape(t) + "\"" + tail;
    StringRead(t, tail);
  }

  /** An entity is read as the call that its text is. */
  lemma EntityRead(h: string, tail: string)
    requires IsHandle(h)
    ensures ReadValue("(handent \"" + h + "\")" + tail) == Some(Parse(VEntity(Some(h)), tail))
  {
    var s := "(handent \"" + h + "\")" + tail;
    var quoted := "\"" + (h + "\"" + (")" + tail));
    assert s[1..] == "handent" + (" " + quoted);
    HandentRead(quoted);
    HandleRead(h, tail);
    var call := More(VSymbol(["handent"]), More(VString([h]), Close));
    FlattenOne(h);
    FlattenOne("handent");
    assert ReadItems(s[1..], true) == Some(ItemsParse(call, tail));
    assert SkipWhitespace(s[1..]) == s[1..];
    assert IsEntityCall(call);
  }

  lemma HandleRead(h: string, tail: string)
    requires IsHandle(h)
    ensures ReadItems("\"" + (h + "\"" + (")" + tail)), false) == Some(ItemsParse(More(VString([h]), Close), tail))
  {
    var quoted := "\"" + (h + "\"" + (")" + tail));
    assert quoted[1..] == h + "\"" + (")" + tail);
    HandleEscapes(h);
    StringRead(h, ")" + tail);
    assert (")" + tail)[1..] == tail;
    assert ReadItems(")" + tail, false) == Some(ItemsParse(Close, tail));
    assert ReadValue(quoted) == Some(Parse(VString([h]), ")" + tail));
  }

  lemma HandentRead(quoted: string)
    requires quoted != "" && quoted[0] == '"'
    ensures ReadValue("handent" + (" " + quoted)) == Some(Parse(VSymbol(["handent"]), " " + quoted))
    ensures SkipWhitespace(" " + quoted) == quoted
  {
    HandentChars();
    HandentName();
    ReadToken("handent", " " + quoted);
    SkipAll(" ", quoted);
  }

  lemma FlattenOne(t: string)
    ensures Flatten([t]) == t
  {
    assert [t][1..] == [] && t + "" == t;
  }

  lemma HandentChars()
    ensures forall c | c in "handent" :: ValidSymbolChar(c) && AtomChar(c) && c != '\\' && !IsDigit(c)
  {
  }

  lemma HandentName()
    ensures Classify("handent") == Some(VSymbol(["handent"]))
  {
    var name := "handent";
    HandentChars();
    HandentIsNoWord();
    NoPoint(name);
    EscapedSame(name);
    DecodeEscaped(name);
  }

  lemma HandentIsNoWord()
    ensures var name := "handent"; !SameIgnoringCase(name, "nil") && !SameIgnoringCase(name, "t") && !IsInteger(name)
  {
    var name := "handent";
    assert |Upper(name)| == 7 && |Upper("nil")| == 3 && |Upper("t")| == 1;
    assert Unsigned(name) == name && name[0] == 'h' && name[0] in name;
  }

  lemma {:induction false} HandleEscapes(h: string)
    requires forall c | c in h :: IsHexDigit(c)
    ensures Escape(h) == h
  {
    if h != "" {
      assert h[0] in h;
      HandleEscapes(h[1..]);
    }
  }

  lemma EntityReads(w: char -> nat, handle: Option<string>, flat: bool, column: nat, tail: string)
    ensures var text := Render(w, EntityDoc(handle), flat, column).text;
            BeginsValue(text) && ReadsBack(ReadValue(text + tail), VEntity(handle), Exact(VEntity(handle), 0), tail)
  {
    if handle.Some? && ValidHandle(handle.value) {
      GoodHandleReads(w, handle.value, flat, column, tail);
    } else {
      BadHandleReads(w, handle, flat, column, tail);
    }
  }

  lemma GoodHandleReads(w: char -> nat, h: string, flat: bool, column: nat, tail: string)
    requires ValidHandle(h)
    ensures var text := Render(w, EntityDoc(Some(h)), flat, column).text;
            BeginsValue(text) && ReadValue(text + tail) == Some(Parse(VEntity(Some(Upper(h))), tail))
  {
    EntityDocText(w, h, flat, column);
    UpperHandle(h);
    EntityRead(Upper(h), tail);
    assert ("(handent \"" + Upper(h) + "\")")[0] == '(';
  }

  lemma BadHandleReads(w: char -> nat, handle: Option<string>, flat: bool, column: nat, tail: string)
    requires !(handle.Some? && ValidHandle(handle.value))
    ensures var text := Render(w, EntityDoc(handle), flat, column).text;
            BeginsValue(text) && ReadValue(text + tail) == Some(Parse(VEntity(None), tail))
  {
    OpaqueDocText(w, "Entity", None, flat, column);
    NoEntityRead(tail);
    assert OpaqueShown("Entity", None)[0] == '#';
  }

  lemma EntityDocText(w: char -> nat, handle: string, flat: bool, column: nat)
    requires ValidHandle(handle)
    ensures Render(w, EntityDoc(Some(handle)), flat, column).text == "(handent \"" + Upper(handle) + "\")"
  {
    var texts := ["(handent \"", Upper(handle), "\")"];
    PiecesText(texts);
    FlattenThree("(handent \"", Upper(handle), "\")");
    RenderText(w, EntityDoc(Some(handle)), flat, column);
  }

  lemma UpperHandle(h: string)
    requires IsHandle(h)
    ensures IsHandle(Upper(h))
  {
    forall i | 0 <= i < |h|
      ensures IsHexDigit(Upper(h)[i])
    {
      assert h[i] in h;
    }
  }

  // ----- Every value -----

  lemma {:induction false} ValueReads(w: char -> nat, v: Value, depth: nat, flat: bool, column: nat, tail: string)
    requires Printable(v, depth) && Delimited(tail)
    ensures var text := Render(w, DocOf(v, depth), flat, column).text;
            BeginsValue(text) && ReadsBack(ReadValue(text + tail), v, Exact(v, depth), tail)
    decreases v, 1
  {
    match v
    case VNil => TextOfOne(w, "nil", flat, column); WordRead("nil", tail);
    case VTrue => TextOfOne(w, "T", flat, column); WordRead("T", tail);
    case VInteger(i) => IntegerReads(w, i, flat, column, tail);
    case VReal(t) => RealReads(w, t, flat, column, tail);
    case VString(pieces) => StringReads(w, pieces, flat, column, tail);
    case VSymbol(pieces) => SymbolReads(w, pieces, flat, column, tail);
    case VEntity(handle) => EntityReads(w, handle, flat, column, tail);
    case VOpaque(kind) => OpaqueValueReads(w, kind, flat, column, tail);
    case VList(items) =>
      if depth >= MAX_VALUE_DEPTH {
        OpaqueValueReads(w, TooDeep, flat, column, tail);
      } else {
        ListReads(w, items, depth, flat, column, tail);
      }
  }

  lemma IntegerReads(w: char -> nat, i: i64, flat: bool, column: nat, tail: string)
    requires Delimited(tail)
    ensures var text := Render(w, Piece(Show(i), Doc.Nil), flat, column).text;
            BeginsValue(text) && ReadValue(text + tail) == Some(Parse(VInteger(i), tail))
  {
    TextOfOne(w, Show(i), flat, column);
    IntegerRead(i);
    assert Show(i)[0] in Show(i);
    ReadToken(Show(i), tail);
  }

  lemma RealReads(w: char -> nat, t: RealText, flat: bool, column: nat, tail: string)
    requires Delimited(tail)
    ensures var text := Render(w, Piece(t, Doc.Nil), flat, column).text;
            BeginsValue(text) && ReadValue(text + tail) == Some(Parse(VReal(t), tail))
  {
    TextOfOne(w, t, flat, column);
    RealChars(t);
    RealRead(t);
    assert t[0] in t;
    ReadToken(t, tail);
  }

  lemma OpaqueValueReads(w: char -> nat, kind: OpaqueKind, flat: bool, column: nat, tail: string)
    ensures var text := Render(w, OpaqueDoc(OpaqueName(kind), LabelOf(kind)), flat, column).text;
            && BeginsValue(text)
            && ReadValue(text + tail) == Some(Parse(VOpaque(if kind.Object? then Object(LabelOf(kind)) else kind),
                                                    tail))
  {
    OpaqueDocText(w, OpaqueName(kind), LabelOf(kind), flat, column);
    OpaqueReads(kind, tail);
    assert OpaqueShown(OpaqueName(kind), LabelOf(kind))[0] == '#';
  }

  lemma {:induction false} ListReads(w: char -> nat, items: Items, depth: nat, flat: bool, column: nat, tail: string)
    requires depth < MAX_VALUE_DEPTH && Printable(VList(items), depth)
    ensures var text := Render(w, DocOf(VList(items), depth), flat, column).text;
            BeginsValue(text) && ReadsBack(ReadValue(text + tail), VList(items), Exact(VList(items), depth), tail)
    decreases items, 2
  {
    var chosen, next := ListText(w, items, depth, flat, column);
    var body := Render(w, ItemsDoc(items, depth, true), chosen, next).text;
    assert ("(" + body + tail)[1..] == body + tail;
    ItemsRead(w, items, depth, true, chosen, next, tail);
    EntityCallPlain(items);
  }

  /** How the group of a list is laid out. */
  lemma ListText(w: char -> nat, items: Items, depth: nat, flat: bool, column: nat) returns (chosen: bool, next: nat)
    requires depth < MAX_VALUE_DEPTH
    ensures Render(w, DocOf(VList(items), depth), flat, column).text
            == "(" + Render(w, ItemsDoc(items, depth, true), chosen, next).text
  {
    var inside := ItemsDoc(items, depth, true);
    chosen := ChooseFlat(w, KindAt(depth), Piece("(", inside), column);
    next := column + Measure(w, "(");
    var body := Render(w, inside, chosen, next).text;
    assert Render(w, Piece("(", inside), chosen, column).text == "(" + body;
    assert Render(w, Doc.Nil, flat, Render(w, Piece("(", inside), chosen, column).column).text == "";
    assert Render(w, DocOf(VList(items), depth), flat, column).text == "(" + body + "";
  }

  lemma EntityCallPlain(items: Items)
    ensures IsEntityCall(PlainItems(items)) <==> IsEntityCall(items)
  {
    if items.More? {
      assert PlainItems(items).rest == PlainItems(items.rest);
      if items.rest.More? {
        assert PlainItems(items.rest).rest == PlainItems(items.rest.rest);
        assert PlainItems(items.rest.rest) == Close <==> items.rest.rest == Close;
      }
      if items.head.VSymbol? {
        FlattenOne(Flatten(items.head.pieces));
      }
      if items.rest.More? && items.rest.head.VString? {
        FlattenOne(Flatten(items.rest.head.pieces));
      }
    }
  }

  /** Inside a list, past whitespace, what is left is read as its remaining items. */
  lemma {:induction false} ItemsRead(w: char -> nat, items: Items, depth: nat, first: bool, flat: bool, column: nat,
                                     tail: string)
    requires ItemsPrintable(items, depth + 1) && !(first && items.Dotted?)
    ensures var text := Render(w, ItemsDoc(items, depth, first), flat, column).text;
            && ItemsReadBack(ReadItems(SkipWhitespace(text + tail), first), items, ItemsExact(items, depth + 1), tail)
            && (!first ==> Delimited(text + tail))
    decreases items, 1
  {
    match items
    case Close => CloseRead(w, depth, first, flat, column, tail);
    case Dotted(t) => DottedRead(w, t, depth, flat, column, tail);
    case More(v, rest) => MoreRead(w, v, rest, depth, first, flat, column, tail);
  }

  lemma BreakText(w: char -> nat, f: string, n: nat, rest: Doc, flat: bool, column: nat)
    returns (space: string, next: nat)
    requires f in {"", " "}
    ensures Render(w, Break(f, n, rest), flat, column).text == space + Render(w, rest, flat, next).text
    ensures forall c | c in space :: IsWhitespace(c)
    ensures f == " " ==> space != ""
  {
    space := if flat then f else "\n" + Spaces(n);
    next := if flat then column + Measure(w, f) else n;
  }

  lemma CloseRead(w: char -> nat, depth: nat, first: bool, flat: bool, column: nat, tail: string)
    ensures var text := Render(w, ItemsDoc(Close, depth, first), flat, column).text;
            && ReadItems(SkipWhitespace(text + tail), first) == Some(ItemsParse(Close, tail))
            && Delimited(text + tail)
  {
    assert (")" + tail)[1..] == tail && SkipWhitespace(")" + tail) == ")" + tail;
    if first {
      TextOfOne(w, ")", flat, column);
    } else {
      var space, next := BreakText(w, "", Indent(depth), Piece(")", Doc.Nil), flat, column);
      TextOfOne(w, ")", flat, next);
      assert space + ")" + tail == space + (")" + tail);
      SkipAll(space, ")" + tail);
    }
  }

  lemma {:induction false} DottedRead(w: char -> nat, t: Value, depth: nat, flat: bool, column: nat, tail: string)
    requires Printable(t, depth + 1)
    ensures var text := Render(w, ItemsDoc(Dotted(t), depth, false), flat, column).text;
            && ItemsReadBack(ReadItems(SkipWhitespace(text + tail), false), Dotted(t), Exact(t, depth + 1), tail)
            && Delimited(text + tail)
    decreases t, 2
  {
    var space1, space2, vt, ct, next, after := DottedText(w, t, depth, flat, column);
    CloseRead(w, depth, false, flat, after, tail);
    ValueReads(w, t, depth + 1, flat, next, ct + tail);
    TailRead(t, Exact(t, depth + 1), space1, space2, vt, ct + tail, tail);
    Regroup5(space1, space2, vt, ct, tail);
    assert space1[0] in space1;
  }

  lemma Regroup5(a: string, b: string, c: string, d: string, e: string)
    ensures a + "." + b + (c + d) + e == a + ("." + (b + (c + (d + e))))
  {
  }

  lemma DottedText(w: char -> nat, t: Value, depth: nat, flat: bool, column: nat)
    returns (space1: string, space2: string, vt: string, ct: string, next: nat, after: nat)
    ensures Render(w, ItemsDoc(Dotted(t), depth, false), flat, column).text == space1 + "." + space2 + (vt + ct)
    ensures (forall c | c in space1 :: IsWhitespace(c)) && space1 != ""
    ensures (forall c | c in space2 :: IsWhitespace(c)) && space2 != ""
    ensures vt == Render(w, DocOf(t, depth + 1), flat, next).text
    ensures ct == Render(w, CloseDoc(depth), flat, after).text
  {
    var value, close := DocOf(t, depth + 1), CloseDoc(depth);
    RenderSeq(w, DotDoc(depth), SeqDoc(value, close), flat, column);
    next := Render(w, DotDoc(depth), flat, column).column;
    RenderSeq(w, value, close, flat, next);
    after := Render(w, value, flat, next).column;
    vt, ct := Render(w, value, flat, next).text, Render(w, close, flat, after).text;
    space1, space2 := DotText(w, depth, flat, column);
  }

  lemma DotText(w: char -> nat, depth: nat, flat: bool, column: nat) returns (space1: string, space2: string)
    ensures Render(w, DotDoc(depth), flat, column).text == space1 + "." + space2
    ensures (forall c | c in space1 :: IsWhitespace(c)) && space1 != ""
    ensures (forall c | c in space2 :: IsWhitespace(c)) && space2 != ""
  {
    var inner := Break(" ", Indent(depth + 1), Doc.Nil);
    var next;
    space1, next := BreakText(w, " ", Indent(depth + 1), Piece(".", inner), flat, column);
    var after;
    space2, after := BreakText(w, " ", Indent(depth + 1), Doc.Nil, flat, next + Measure(w, "."));
    assert Render(w, Doc.Nil, flat, after).text == "" && space2 + "" == space2;
    assert Render(w, Piece(".", inner), flat, next).text == "." + space2;
  }

  lemma TailRead(t: Value, exact: bool, space1: string, space2: string, vt: string, closing: string, tail: string)
    requires forall c | c in space1 :: IsWhitespace(c)
    requires space2 != "" && forall c | c in space2 :: IsWhitespace(c)
    requires BeginsValue(vt) && ReadsBack(ReadValue(vt + closing), t, exact, closing)
    requires ReadItems(SkipWhitespace(closing), false) == Some(ItemsParse(Close, tail))
    ensures ItemsReadBack(ReadItems(SkipWhitespace(space1 + ("." + (space2 + (vt + closing)))), false), Dotted(t),
                          exact, tail)
  {
    var s := "." + (space2 + (vt + closing));
    SkipAll(space1, s);
    assert SkipWhitespace(s) == s;
    assert s[1] == space2[0] && space2[0] in space2;
    assert s[1..] == space2 + (vt + closing);
    SkipAll(space2, vt + closing);
    assert SkipWhitespace(vt + closing) == vt + closing;
    ClosingOnly(SkipWhitespace(closing), tail);
  }

  /** Only a closing parenthesis is read as the end of a list. */
  lemma ClosingOnly(s: string, tail: string)
    requires ReadItems(s, false) == Some(ItemsParse(Close, tail))
    ensures s != "" && s[0] == ')' && s[1..] == tail
  {
  }

  lemma {:induction false} MoreRead(w: char -> nat, v: Value, rest: Items, depth: nat, first: bool, flat: bool,
                                    column: nat, tail: string)
    requires Printable(v, depth + 1) && ItemsPrintable(rest, depth + 1)
    ensures var items := More(v, rest);
            var text := Render(w, ItemsDoc(items, depth, first), flat, column).text;
            && ItemsReadBack(ReadItems(SkipWhitespace(text + tail), first), items, ItemsExact(items, depth + 1), tail)
            && (!first ==> Delimited(text + tail))
    decreases More(v, rest), 0
  {
    var space, vt, mt, next, after := MoreText(w, v, rest, depth, first, flat, column);
    ItemsRead(w, rest, depth, false, flat, after, tail);
    ValueReads(w, v, depth + 1, flat, next, mt + tail);
    NextRead(v, rest, first, Exact(v, depth + 1), ItemsExact(rest, depth + 1), space, vt, mt + tail, tail);
    Regroup4(space, vt, mt, tail);
    assert space != "" ==> space[0] in space;
  }

  lemma Regroup4(a: string, b: string, c: string, d: string)
    ensures a + (b + c) + d == a + (b + (c + d))
  {
  }

  lemma MoreText(w: char -> nat, v: Value, rest: Items, depth: nat, first: bool, flat: bool, column: nat)
    returns (space: string, vt: string, mt: string, next: nat, after: nat)
    ensures Render(w, ItemsDoc(More(v, rest), depth, first), flat, column).text == space + (vt + mt)
    ensures (forall c | c in space :: IsWhitespace(c)) && (!first ==> space != "")
    ensures vt == Render(w, DocOf(v, depth + 1), flat, next).text
    ensures mt == Render(w, ItemsDoc(rest, depth, false), flat, after).text
  {
    var sep, value, more := SeparatorDoc(v, depth, first), DocOf(v, depth + 1), ItemsDoc(rest, depth, false);
    RenderSeq(w, sep, SeqDoc(value, more), flat, column);
    next := Render(w, sep, flat, column).column;
    RenderSeq(w, value, more, flat, next);
    after := Render(w, value, flat, next).column;
    vt, mt := Render(w, value, flat, next).text, Render(w, more, flat, after).text;
    space := SeparatorText(w, v, depth, first, flat, column);
  }

  lemma SeparatorText(w: char -> nat, v: Value, depth: nat, first: bool, flat: bool, column: nat)
    returns (space: string)
    ensures Render(w, SeparatorDoc(v, depth, first), flat, column).text == space
    ensures forall c | c in space :: IsWhitespace(c)
    ensures !first ==> space != ""
  {
    space := "";
    if !first || !v.VSymbol? {
      var next;
      space, next := BreakText(w, if first then "" else " ", Indent(depth + 1), Doc.Nil, flat, column);
      assert Render(w, Doc.Nil, flat, next).text == "" && space + "" == space;
    }
  }

  lemma NextRead(v: Value, rest: Items, first: bool, exact: bool, restExact: bool, space: string, vt: string,
                 after: string, tail: string)
    requires forall c | c in space :: IsWhitespace(c)
    requires BeginsValue(vt) && ReadsBack(ReadValue(vt + after), v, exact, after)
    requires ItemsReadBack(ReadItems(SkipWhitespace(after), false), rest, restExact, tail)
    ensures ItemsReadBack(ReadItems(SkipWhitespace(space + (vt + after)), first), More(v, rest),
                          exact && restExact, tail)
  {
    var s := vt + after;
    SkipAll(space, s);
    assert SkipWhitespace(s) == s;
    assert s[0] == vt[0];
  }

  // ----- The whole text -----

  /** The value is printed, and what is printed reads back as the value. */
  predicate RoundTrips(w: char -> nat, v: Value)
  {
    var r := OnEvents(Fresh, Events(v));
    && r.Accepted? && MayFinish(r.state)
    && Print(w, r.toks).Some?
    && ReadAll(Print(w, r.toks).value) == Some(Plain(v))
  }

  /** What is rendered for a printable value reads back as the value if it has a text of its own. */
  lemma DocumentReads(w: char -> nat, v: Value)
    requires Printable(v, 0)
    ensures ReadAll(Render(w, DocOf(v, 0), false, 0).text + "\n") == Some(Plain(v)) <==> Exact(v, 0)
  {
    var text := Render(w, DocOf(v, 0), false, 0).text;
    assert ['\n'][1..] == "" && SkipWhitespace("\n") == "";
    ValueReads(w, v, 0, false, 0, "\n");
    assert SkipWhitespace(text + "\n") == text + "\n";
  }

  /** At every width, exactly the printable values with a text of their own round-trip. */
  lemma RoundTripExactly(w: char -> nat, v: Value)
    ensures RoundTrips(w, v) <==> Printable(v, 0) && Exact(v, 0)
  {
    PrintsDocument(w, v);
    if Printable(v, 0) {
      DocumentReads(w, v);
    }
  }
}
