/** The spans of forms are what the automaton, which knows only characters, says they should be. */
module FormSpans {
  import opened Text
  import opened Forms

  lemma ReadOne(r: Reading, s: string, i: nat, k: nat)
    requires i < k <= |s|
    ensures Read(r, s, i, k) == Read(Step(r, s[i]), s, i + 1, k)
    ensures Inside(r, s, i, k) <==> r.depth >= 1 && Inside(Step(r, s[i]), s, i + 1, k)
  {
  }

  lemma ReadTwo(r: Reading, s: string, i: nat, k: nat)
    requires i + 2 <= k <= |s|
    ensures var r1 := Step(r, s[i]);
            var r2 := Step(r1, s[i + 1]);
            && Read(r, s, i, k) == Read(r2, s, i + 2, k)
            && (Inside(r, s, i, k) <==> r.depth >= 1 && r1.depth >= 1 && Inside(r2, s, i + 2, k))
  {
    ReadOne(r, s, i, k);
    ReadOne(Step(r, s[i]), s, i + 1, k);
  }

  lemma ReadThree(r: Reading, s: string, i: nat, k: nat)
    requires i + 3 <= k <= |s|
    ensures var r1 := Step(r, s[i]);
            var r2 := Step(r1, s[i + 1]);
            var r3 := Step(r2, s[i + 2]);
            && Read(r, s, i, k) == Read(r3, s, i + 3, k)
            && (Inside(r, s, i, k) <==> r.depth >= 1 && r1.depth >= 1 && r2.depth >= 1 && Inside(r3, s, i + 3, k))
  {
    ReadTwo(r, s, i, k);
    ReadOne(Step(Step(r, s[i]), s[i + 1]), s, i + 2, k);
  }

  lemma {:induction false} ReadOn(r: Reading, s: string, i: nat, j: nat, k: nat)
    requires i <= j <= k <= |s|
    ensures Read(r, s, i, k) == Read(Read(r, s, i, j), s, j, k)
    decreases j - i
  {
    if i < j {
      ReadOn(Step(r, s[i]), s, i + 1, j, k);
    }
  }

  lemma {:induction false} InsideOn(r: Reading, s: string, i: nat, j: nat, k: nat)
    requires i <= j <= k <= |s|
    requires Inside(r, s, i, j) && Inside(Read(r, s, i, j), s, j, k)
    ensures Inside(r, s, i, k)
    decreases j - i
  {
    if i < j {
      InsideOn(Step(r, s[i]), s, i + 1, j, k);
    }
  }

  lemma {:induction false} InsideAt(r: Reading, s: string, i: nat, j: nat, k: nat)
    requires i <= j <= k <= |s| && Inside(r, s, i, k)
    ensures Read(r, s, i, j).depth >= 1
    decreases j - i
  {
    if i < j {
      InsideAt(Step(r, s[i]), s, i + 1, j, k);
    }
  }

  /** Code, or the end of a line comment that the next line break ends. */
  predicate CodeLike(m: Mode, s: string, i: nat) {
    m == Code || (m in {Semicolon, InLine} && (i >= |s| || s[i] in {'\r', '\n'}))
  }

  // ----- Strings and comments change no depth -----

  lemma {:induction false} StringReads(s: string, i: nat, start: nat, depth: int)
    requires i <= |s|
    ensures var r, e := Reading(InString, depth), StringEnd(s, i, start);
            if e.At? then Read(r, s, i, e.end) == Reading(Code, depth) && (depth >= 1 ==> Inside(r, s, i, e.end))
            else
              && e == Fail(UnterminatedString, start)
              && Read(r, s, i, |s|).mode in {InString, Escaped} && (depth >= 1 ==> Inside(r, s, i, |s|))
    decreases |s| - i
  {
    var r, e := Reading(InString, depth), StringEnd(s, i, start);
    var last := if e.At? then e.end else |s|;
    if i < |s| && s[i] == '\\' && i + 1 < |s| {
      StringReads(s, Advance(s, i + 1), start, depth);
      if CrLfAt(s, i + 1) {
        ReadThree(r, s, i, last);
      } else {
        ReadTwo(r, s, i, last);
      }
    } else if i < |s| && s[i] != '"' {
      if s[i] != '\\' {
        StringReads(s, Advance(s, i), start, depth);
      }
      if CrLfAt(s, i) {
        ReadTwo(r, s, i, last);
      } else {
        ReadOne(r, s, i, last);
      }
    } else if i < |s| {
      ReadOne(r, s, i, last);
    }
  }

  /** The automaton is inside a string everywhere from `i` to `k`. */
  predicate StaysInString(m: Mode, s: string, i: nat, k: nat)
    requires i <= k <= |s|
    decreases k - i
  {
    m in {InString, Escaped} && (i < k ==> StaysInString(Step(Reading(m, 0), s[i]).mode, s, i + 1, k))
  }

  lemma {:induction false} StringStays(s: string, i: nat, start: nat)
    requires i <= |s|
    ensures var e := StringEnd(s, i, start); StaysInString(InString, s, i, if e.At? then e.end - 1 else |s|)
    decreases |s| - i
  {
    if i < |s| && s[i] == '\\' && i + 1 < |s| {
      StringStays(s, Advance(s, i + 1), start);
      var e := StringEnd(s, i, start);
      var last := if e.At? then e.end - 1 else |s|;
      assert Step(Reading(Escaped, 0), s[i + 1]).mode == InString;
      assert StaysInString(Escaped, s, i + 1, last) <== StaysInString(InString, s, i + 2, last);
    } else if i < |s| && s[i] != '"' && s[i] != '\\' {
      StringStays(s, Advance(s, i), start);
    }
  }

  lemma {:induction false} StaysAt(m: Mode, s: string, i: nat, j: nat, k: nat)
    requires i <= j <= k <= |s| && StaysInString(m, s, i, k)
    ensures Read(Reading(m, 0), s, i, j).mode in {InString, Escaped}
    decreases j - i
  {
    if i < j {
      var next := Step(Reading(m, 0), s[i]);
      StaysAt(next.mode, s, i + 1, j, k);
    }
  }

  /** `k` is the first place behind the string whose content begins at `i`. */
  ghost predicate LeavesStringAt(s: string, i: nat, k: nat)
    requires i <= |s|
  {
    && i < k <= |s| && Read(Reading(InString, 0), s, i, k).mode !in {InString, Escaped}
    && forall j | i <= j < k :: Read(Reading(InString, 0), s, i, j).mode in {InString, Escaped}
  }

  /** A string ends exactly where the automaton leaves it for the first time; without an end the
      automaton is still in it where the text ends. */
  lemma StringSpan(s: string, i: nat, start: nat)
    requires i <= |s|
    ensures forall k: nat :: StringEnd(s, i, start) == At(k) <==> LeavesStringAt(s, i, k)
    ensures StringEnd(s, i, start).Fail? <==>
            forall j | i <= j <= |s| :: Read(Reading(InString, 0), s, i, j).mode in {InString, Escaped}
  {
    var e := StringEnd(s, i, start);
    var last := if e.At? then e.end - 1 else |s|;
    StringReads(s, i, start, 0);
    StringStays(s, i, start);
    forall j | i <= j <= last ensures Read(Reading(InString, 0), s, i, j).mode in {InString, Escaped} {
      StaysAt(InString, s, i, j, last);
    }
  }

  lemma {:induction false} LineReads(s: string, i: nat, depth: int)
    requires i <= |s|
    ensures var r, e := Reading(InLine, depth), LineEnd(s, i);
            && Read(r, s, i, e) == r && (depth >= 1 ==> Inside(r, s, i, e)) && CodeLike(InLine, s, e)
    decreases |s| - i
  {
    if i < |s| && s[i] !in {'\r', '\n'} {
      LineReads(s, i + 1, depth);
    }
  }

  lemma {:induction false} BlockReads(s: string, i: nat, start: nat, mode: Mode, depth: int)
    requires i <= |s| && (mode == InBlock || (mode == Bar && (i >= |s| || s[i] != ';')))
    ensures var r, e := Reading(mode, depth), BlockEnd(s, i, start);
            if e.At? then Read(r, s, i, e.end) == Reading(Code, depth) && (depth >= 1 ==> Inside(r, s, i, e.end))
            else
              && e == Fail(UnterminatedBlockComment, start)
              && Read(r, s, i, |s|).mode in {InBlock, Bar} && (depth >= 1 ==> Inside(r, s, i, |s|))
    decreases |s| - i
  {
    var r, e := Reading(mode, depth), BlockEnd(s, i, start);
    if PairAt(s, i, '|', ';') {
      ReadTwo(r, s, i, i + 2);
    } else if i < |s| {
      var last := if e.At? then e.end else |s|;
      var next := Step(r, s[i]);
      BlockReads(s, Advance(s, i), start, next.mode, depth);
      if CrLfAt(s, i) {
        ReadTwo(r, s, i, last);
      } else {
        ReadOne(r, s, i, last);
      }
    }
  }

  lemma CommentReads(s: string, i: nat, depth: int)
    requires i < |s| && s[i] == ';'
    ensures var r, e := Reading(Code, depth), CommentEnd(s, i);
            if e.At? then
              var after := Read(r, s, i, e.end);
              CodeLike(after.mode, s, e.end) && after.depth == depth && (depth >= 1 ==> Inside(r, s, i, e.end))
            else
              && e == Fail(UnterminatedBlockComment, i)
              && Read(r, s, i, |s|).mode in {InBlock, Bar} && (depth >= 1 ==> Inside(r, s, i, |s|))
  {
    var semicolon := Step(Reading(Code, depth), ';');
    if PairAt(s, i, ';', '|') {
      BlockReads(s, i + 2, i, InBlock, depth);
      assert Step(semicolon, '|') == Reading(InBlock, depth);
    } else {
      assert LineEnd(s, i) == LineEnd(s, i + 1);
      if i + 1 < |s| && s[i + 1] !in {'\r', '\n'} {
        assert Step(semicolon, s[i + 1]) == Reading(InLine, depth);
        LineReads(s, i + 2, depth);
      }
    }
  }

  // ----- Lists -----

  /** What a scan inside a list says about the automaton. */
  predicate ListRead(r: Reading, s: string, i: nat, e: Scan, start: nat)
    requires i <= |s| && (e.At? ==> i < e.end <= |s|)
  {
    match e
    case At(k) => Inside(r, s, i, k - 1) && Read(r, s, i, k) == Reading(Code, 0)
    case Fail(kind, place) =>
      && Inside(r, s, i, |s|)
      && var mode := Read(r, s, i, |s|).mode;
         if mode in {InString, Escaped} then kind == UnterminatedString
         else if mode in {InBlock, Bar} then kind == UnterminatedBlockComment
         else kind == UnterminatedList && place == start
  }

  lemma ListReadOn(r: Reading, s: string, i: nat, j: nat, e: Scan, start: nat)
    requires i <= j <= |s| && (e.At? ==> j < e.end <= |s|)
    requires Inside(r, s, i, j) && ListRead(Read(r, s, i, j), s, j, e, start)
    ensures ListRead(r, s, i, e, start)
  {
    match e
    case At(k) =>
      ReadOn(r, s, i, j, k);
      InsideOn(r, s, i, j, k - 1);
    case Fail(_, _) =>
      ReadOn(r, s, i, j, |s|);
      InsideOn(r, s, i, j, |s|);
  }

  lemma {:induction false} ListReads(s: string, i: nat, depth: nat, start: nat, mode: Mode)
    requires i <= |s| && depth >= 1 && CodeLike(mode, s, i)
    ensures ListRead(Reading(mode, depth), s, i, ListEnd(s, i, depth, start), start)
    decreases |s| - i
  {
    var r := Reading(mode, depth);
    if i < |s| {
      if s[i] == '"' {
        StringInList(s, i, depth, start);
      } else if s[i] == ';' {
        CommentInList(s, i, depth, start);
      } else if s[i] == '(' {
        ListReads(s, i + 1, depth + 1, start, Code);
        ListReadOn(r, s, i, i + 1, ListEnd(s, i, depth, start), start);
      } else if s[i] == ')' {
        if depth > 1 {
          ListReads(s, i + 1, depth - 1, start, Code);
          ListReadOn(r, s, i, i + 1, ListEnd(s, i, depth, start), start);
        }
      } else {
        OtherInList(s, i, depth, mode);
        ListReads(s, Advance(s, i), depth, start, Code);
        ListReadOn(r, s, i, Advance(s, i), ListEnd(s, i, depth, start), start);
      }
    }
  }

  lemma OtherInList(s: string, i: nat, depth: nat, mode: Mode)
    requires i < |s| && depth >= 1 && CodeLike(mode, s, i) && s[i] !in {'(', ')', '"', ';'}
    ensures var r := Reading(mode, depth);
            Read(r, s, i, Advance(s, i)) == Reading(Code, depth) && Inside(r, s, i, Advance(s, i))
  {
    if CrLfAt(s, i) {
      ReadTwo(Reading(mode, depth), s, i, i + 2);
    } else {
      ReadOne(Reading(mode, depth), s, i, i + 1);
    }
  }

  lemma {:induction false} StringInList(s: string, i: nat, depth: nat, start: nat)
    requires i < |s| && s[i] == '"' && depth >= 1
    ensures ListRead(Reading(Code, depth), s, i, ListEnd(s, i, depth, start), start)
    decreases |s| - i, 0
  {
    var r, inner := Reading(Code, depth), StringEnd(s, i + 1, i);
    StringReads(s, i + 1, i, depth);
    ReadOne(r, s, i, if inner.At? then inner.end else |s|);
    assert ListEnd(s, i, depth, start) == ListAfter(s, inner, i, depth, start);
    if inner.At? {
      ListReads(s, inner.end, depth, start, Code);
      ListReadOn(r, s, i, inner.end, ListEnd(s, i, depth, start), start);
    }
  }

  lemma {:induction false} CommentInList(s: string, i: nat, depth: nat, start: nat)
    requires i < |s| && s[i] == ';' && depth >= 1
    ensures ListRead(Reading(Code, depth), s, i, ListEnd(s, i, depth, start), start)
    decreases |s| - i, 0
  {
    var r, inner := Reading(Code, depth), CommentEnd(s, i);
    CommentReads(s, i, depth);
    assert ListEnd(s, i, depth, start) == ListAfter(s, inner, i, depth, start);
    if inner.At? {
      ListReads(s, inner.end, depth, start, Read(r, s, i, inner.end).mode);
      ListReadOn(r, s, i, inner.end, ListEnd(s, i, depth, start), start);
    }
  }

  /** From `i` on, `k` is the first place where no parenthesis is open. */
  ghost predicate ClosesAt(s: string, i: nat, k: nat)
    requires i <= |s|
  {
    && i < k <= |s| && Read(Reading(Code, 0), s, i, k).depth == 0
    && forall j | i < j < k :: Read(Reading(Code, 0), s, i, j).depth >= 1
  }

  /** A list is the shortest text whose parentheses outside strings and comments are balanced; without
      one the scan fails, and for the reason of whatever was left open at the end. */
  lemma ListSpan(s: string, i: nat)
    requires i < |s| && s[i] == '('
    ensures forall k: nat :: ListEnd(s, i, 0, i) == At(k) <==> ClosesAt(s, i, k)
    ensures ListEnd(s, i, 0, i).Fail? ==>
              var mode := Read(Reading(Code, 0), s, i, |s|).mode;
              ListEnd(s, i, 0, i).kind ==
              if mode in {InString, Escaped} then UnterminatedString
              else if mode in {InBlock, Bar} then UnterminatedBlockComment
              else UnterminatedList
  {
    var e, r, r1 := ListEnd(s, i, 0, i), Reading(Code, 0), Reading(Code, 1);
    assert e == ListEnd(s, i + 1, 1, i) && Step(r, s[i]) == r1;
    ListReads(s, i + 1, 1, i, Code);
    var last := if e.At? then e.end - 1 else |s|;
    forall j | i < j <= |s| ensures j <= last ==> Read(r, s, i, j).depth >= 1 {
      ReadOne(r, s, i, j);
      if j <= last {
        InsideAt(r1, s, i + 1, j, last);
      }
    }
    if e.At? {
      ReadOne(r, s, i, e.end);
      assert Read(r, s, i, e.end).depth == 0;
    }
    forall k: nat ensures e == At(k) <==> ClosesAt(s, i, k) {
      if ClosesAt(s, i, k) {
        assert Read(r, s, i, k).depth == 0;
        assert e.At? && k >= e.end;
      }
    }
    if e.Fail? {
      ReadOne(r, s, i, |s|);
    }
  }

  // ----- Trivia -----

  lemma {:induction false} TriviaOn(mode: Mode, s: string, i: nat, j: nat, k: nat, depth: int)
    requires i <= j <= k <= |s|
    requires OnlyTrivia(mode, s, i, j) && OnlyTrivia(Read(Reading(mode, depth), s, i, j).mode, s, j, k)
    ensures OnlyTrivia(mode, s, i, k)
    decreases j - i
  {
    if i < j {
      var next := Step(Reading(mode, depth), s[i]);
      assert next.mode == Step(Reading(mode, 0), s[i]).mode;
      TriviaOn(next.mode, s, i + 1, j, k, next.depth);
    }
  }

  lemma {:induction false} SpaceIsTrivia(mode: Mode, s: string, i: nat)
    requires i <= |s| && CodeLike(mode, s, i)
    ensures var k := SpaceEnd(s, i);
            && OnlyTrivia(mode, s, i, k) && CodeLike(Read(Reading(mode, 0), s, i, k).mode, s, k)
            && Read(Reading(mode, 0), s, i, k).depth == 0
    decreases |s| - i
  {
    if i < |s| && IsWhitespace(s[i]) {
      SpaceIsTrivia(Code, s, Advance(s, i));
      assert Step(Reading(mode, 0), s[i]) == Reading(Code, 0);
      if CrLfAt(s, i) {
        assert Step(Reading(Code, 0), s[i + 1]) == Reading(Code, 0);
      }
    }
  }

  lemma {:induction false} LineIsTrivia(s: string, i: nat)
    requires i <= |s|
    ensures OnlyTrivia(InLine, s, i, LineEnd(s, i))
    decreases |s| - i
  {
    if i < |s| && s[i] !in {'\r', '\n'} {
      LineIsTrivia(s, i + 1);
    }
  }

  lemma {:induction false} BlockIsTrivia(s: string, i: nat, start: nat, mode: Mode)
    requires i <= |s| && (mode == InBlock || (mode == Bar && (i >= |s| || s[i] != ';')))
    requires BlockEnd(s, i, start).At?
    ensures OnlyTrivia(mode, s, i, BlockEnd(s, i, start).end)
    decreases |s| - i
  {
    if !PairAt(s, i, '|', ';') {
      var next := Step(Reading(mode, 0), s[i]).mode;
      if CrLfAt(s, i) {
        assert next == InBlock && Step(Reading(InBlock, 0), s[i + 1]).mode == InBlock;
      }
      BlockIsTrivia(s, Advance(s, i), start, next);
    }
  }

  lemma CommentIsTrivia(s: string, i: nat)
    requires i < |s| && s[i] == ';' && CommentEnd(s, i).At?
    ensures OnlyTrivia(Code, s, i, CommentEnd(s, i).end)
  {
    var semicolon := Step(Reading(Code, 0), ';');
    if PairAt(s, i, ';', '|') {
      BlockIsTrivia(s, i + 2, i, InBlock);
      assert Step(semicolon, '|').mode == InBlock;
    } else {
      assert LineEnd(s, i) == LineEnd(s, i + 1);
      if i + 1 < |s| && s[i + 1] !in {'\r', '\n'} {
        assert Step(semicolon, s[i + 1]).mode == InLine;
        LineIsTrivia(s, i + 2);
      }
    }
  }

  /** Skipping reads only white space and comments, and stops where neither goes on. */
  lemma {:induction false} SkipsTrivia(s: string, i: nat, mode: Mode)
    requires i <= |s| && CodeLike(mode, s, i)
    ensures var e := TriviaEnd(s, i);
            if e.At? then OnlyTrivia(mode, s, i, e.end) && (e.end < |s| ==> !IsWhitespace(s[e.end]) && s[e.end] != ';')
            else e.kind == UnterminatedBlockComment && Read(Reading(mode, 0), s, i, |s|).mode in {InBlock, Bar}
    decreases |s| - i
  {
    var j := SpaceEnd(s, i);
    SpaceIsTrivia(mode, s, i);
    if j < |s| && s[j] == ';' {
      var c := CommentEnd(s, j);
      CommentReads(s, j, 0);
      ReadOn(Reading(mode, 0), s, i, j, |s|);
      if c.At? {
        CommentIsTrivia(s, j);
        var after := Read(Reading(Code, 0), s, j, c.end);
        SkipsTrivia(s, c.end, after.mode);
        ReadOn(Reading(Code, 0), s, j, c.end, |s|);
        if TriviaEnd(s, c.end).At? {
          TriviaOn(Code, s, j, c.end, TriviaEnd(s, c.end).end, 0);
          TriviaOn(mode, s, i, j, TriviaEnd(s, c.end).end, 0);
        }
      }
    }
  }

  // ----- All forms -----

  function StartOfRest(s: string, i: nat, forms: seq<Next>, k: nat): (r: nat)
    requires i <= |s| && k <= |forms| && forall j | 0 <= j < k :: forms[j].Form?
  {
    if k == 0 then i else forms[k - 1].end
  }

  /** Forms follow one another: each begins after the one before it, with only trivia between, and
      after the last one there is only trivia. */
  lemma {:induction false} FormsInOrder(s: string, i: nat, k: nat)
    requires i <= |s| && k < |FormsFrom(s, i)| && FormsFrom(s, i)[k].Form?
    ensures var forms := FormsFrom(s, i);
            var from := StartOfRest(s, i, forms, k);
            && i <= from <= forms[k].start < forms[k].end <= |s|
            && OnlyTrivia(Code, s, from, forms[k].start)
            && FormsFrom(s, forms[k].end) == forms[k + 1..]
    decreases k
  {
    var first := NextForm(s, i);
    SkipsTrivia(s, i, Code);
    assert FormsFrom(s, i)[0] == first;
    assert FormsFrom(s, i)[1..] == FormsFrom(s, first.end);
    if k > 0 {
      FormsInOrder(s, first.end, k - 1);
      assert FormsFrom(s, first.end)[k..] == FormsFrom(s, i)[k + 1..];
    }
  }

  lemma {:induction false} OnlyTriviaAfter(s: string, i: nat)
    requires i <= |s| && AllForms(FormsFrom(s, i))
    ensures var forms := FormsFrom(s, i);
            var last := StartOfRest(s, i, forms, |forms|);
            last <= |s| && OnlyTrivia(Code, s, last, |s|)
    decreases |s| - i
  {
    SkipsTrivia(s, i, Code);
    var first := NextForm(s, i);
    if first.Form? {
      var rest := FormsFrom(s, first.end);
      assert FormsFrom(s, i) == [first] + rest;
      OnlyTriviaAfter(s, first.end);
    }
  }

  // ----- A form on its own is one form -----

  /** `t` is the part of `s` from `a` to `e`. */
  predicate Part(s: string, a: nat, e: nat, t: string) {
    a <= e <= |s| && t == s[a..e]
  }

  lemma PartAdvance(s: string, a: nat, e: nat, t: string, i: nat)
    requires Part(s, a, e, t) && a <= i < e && Advance(s, i) <= e
    ensures Advance(t, i - a) == Advance(s, i) - a && t[i - a] == s[i]
  {
  }

  lemma {:induction false} PartLine(s: string, a: nat, e: nat, t: string, i: nat)
    requires Part(s, a, e, t) && a <= i <= |s| && LineEnd(s, i) <= e
    ensures LineEnd(t, i - a) == LineEnd(s, i) - a
    decreases |s| - i
  {
    if i < e && s[i] !in {'\r', '\n'} {
      PartLine(s, a, e, t, i + 1);
    }
  }

  lemma {:induction false} PartBlock(s: string, a: nat, e: nat, t: string, i: nat, start: nat, start': nat)
    requires Part(s, a, e, t) && a <= i <= |s| && BlockEnd(s, i, start).At? && BlockEnd(s, i, start).end <= e
    ensures BlockEnd(t, i - a, start') == At(BlockEnd(s, i, start).end - a)
    decreases |s| - i
  {
    if !PairAt(s, i, '|', ';') {
      PartAdvance(s, a, e, t, i);
      PartBlock(s, a, e, t, Advance(s, i), start, start');
      assert !PairAt(t, i - a, '|', ';');
    }
  }

  lemma PartComment(s: string, a: nat, e: nat, t: string, i: nat)
    requires Part(s, a, e, t) && a <= i < |s| && s[i] == ';' && CommentEnd(s, i).At? && CommentEnd(s, i).end <= e
    ensures CommentEnd(t, i - a) == At(CommentEnd(s, i).end - a)
  {
    if PairAt(s, i, ';', '|') {
      PartBlock(s, a, e, t, i + 2, i, i - a);
      assert PairAt(t, i - a, ';', '|');
    } else {
      PartLine(s, a, e, t, i);
    }
  }

  lemma {:induction false} PartSpace(s: string, a: nat, e: nat, t: string, i: nat)
    requires Part(s, a, e, t) && a <= i <= |s| && SpaceEnd(s, i) <= e
    ensures SpaceEnd(t, i - a) == SpaceEnd(s, i) - a
    decreases |s| - i
  {
    if i < e && IsWhitespace(s[i]) {
      PartAdvance(s, a, e, t, i);
      PartSpace(s, a, e, t, Advance(s, i));
    }
  }

  lemma {:induction false} PartTrivia(s: string, a: nat, e: nat, t: string, i: nat)
    requires Part(s, a, e, t) && a <= i <= |s| && TriviaEnd(s, i).At? && TriviaEnd(s, i).end <= e
    ensures TriviaEnd(t, i - a) == At(TriviaEnd(s, i).end - a)
    decreases |s| - i
  {
    var j := SpaceEnd(s, i);
    PartSpace(s, a, e, t, i);
    if j < |s| && s[j] == ';' {
      PartComment(s, a, e, t, j);
      PartTrivia(s, a, e, t, CommentEnd(s, j).end);
    }
  }

  lemma {:induction false} PartString(s: string, a: nat, e: nat, t: string, i: nat, start: nat, start': nat)
    requires Part(s, a, e, t) && a <= i <= |s| && StringEnd(s, i, start).At? && StringEnd(s, i, start).end <= e
    ensures StringEnd(t, i - a, start') == At(StringEnd(s, i, start).end - a)
    decreases |s| - i
  {
    if s[i] == '\\' {
      PartAdvance(s, a, e, t, i + 1);
      PartString(s, a, e, t, Advance(s, i + 1), start, start');
    } else if s[i] != '"' {
      PartAdvance(s, a, e, t, i);
      PartString(s, a, e, t, Advance(s, i), start, start');
    }
  }

  lemma {:induction false} PartList(s: string, a: nat, e: nat, t: string, i: nat, depth: nat, start: nat, start': nat)
    requires Part(s, a, e, t) && a <= i <= |s| && (depth == 0 ==> i < |s| && s[i] == '(')
    requires ListEnd(s, i, depth, start).At? && ListEnd(s, i, depth, start).end <= e
    ensures i < e && t[i - a] == s[i] && ListEnd(t, i - a, depth, start') == At(ListEnd(s, i, depth, start).end - a)
    decreases |s| - i
  {
    assert i < e && t[i - a] == s[i];
    if s[i] == '(' {
      PartList(s, a, e, t, i + 1, depth + 1, start, start');
    } else if s[i] == ')' {
      if depth > 1 {
        PartList(s, a, e, t, i + 1, depth - 1, start, start');
      }
    } else if s[i] in {'"', ';'} {
      PartInList(s, a, e, t, i, depth, start, start');
    } else {
      PartAdvance(s, a, e, t, i);
      PartList(s, a, e, t, Advance(s, i), depth, start, start');
    }
  }

  /** What a string or a comment is skipped to. */
  function InnerEnd(s: string, i: nat): (r: Scan)
    requires i < |s| && s[i] in {'"', ';'}
    ensures r.At? ==> i < r.end <= |s|
  {
    if s[i] == ';' then CommentEnd(s, i) else StringEnd(s, i + 1, i)
  }

  lemma PartInner(s: string, a: nat, e: nat, t: string, i: nat)
    requires Part(s, a, e, t) && a <= i < |s| && s[i] in {'"', ';'} && InnerEnd(s, i).At? && InnerEnd(s, i).end <= e
    ensures t[i - a] == s[i] && InnerEnd(t, i - a) == At(InnerEnd(s, i).end - a)
  {
    if s[i] == ';' {
      PartComment(s, a, e, t, i);
    } else {
      PartString(s, a, e, t, i + 1, i, i - a);
    }
  }

  lemma InnerInList(s: string, i: nat, depth: nat, start: nat)
    requires i < |s| && s[i] in {'"', ';'} && depth > 0
    ensures ListEnd(s, i, depth, start) == ListAfter(s, InnerEnd(s, i), i, depth, start)
  {
  }

  lemma {:induction false} PartInList(s: string, a: nat, e: nat, t: string, i: nat, depth: nat, start: nat, start': nat)
    requires Part(s, a, e, t) && a <= i < e && s[i] in {'"', ';'} && depth > 0
    requires ListEnd(s, i, depth, start).At? && ListEnd(s, i, depth, start).end <= e
    ensures ListEnd(t, i - a, depth, start') == At(ListEnd(s, i, depth, start).end - a)
    decreases |s| - i, 0
  {
    InnerInList(s, i, depth, start);
    PartInner(s, a, e, t, i);
    InnerInList(t, i - a, depth, start');
    PartList(s, a, e, t, InnerEnd(s, i).end, depth, start, start');
  }

  lemma {:induction false} TokenIs(s: string, i: nat, e: nat)
    requires i <= e <= |s| && (e < |s| ==> Delimiter(s[e])) && forall j | i <= j < e :: !Delimiter(s[j])
    ensures TokenEnd(s, i) == e
    decreases e - i
  {
    if i < e {
      TokenIs(s, i + 1, e);
    }
  }

  lemma SlicePrefix(s: string, i: nat, e: nat, k: nat)
    requires i <= e <= k <= |s|
    ensures s[i..k][..e - i] == s[i..e]
  {
  }

  lemma PartAtom(s: string, a: nat, e: nat, t: string, i: nat)
    requires Part(s, a, e, t) && a <= i < |s| && !Delimiter(s[i]) && AtomEnd(s, i) == e
    ensures AtomEnd(t, i - a) == |t|
  {
    var token := s[i..TokenEnd(s, i)];
    TokenIs(t, i - a, |t|);
    assert t[i - a..|t|] == s[i..e];
    SlicePrefix(s, i, e, TokenEnd(s, i));
    if e < TokenEnd(s, i) {
      assert forall j | 0 <= j < e - i :: token[j] != '.';
    }
  }

  lemma QuoteFirst(s: string, i: nat, quote: Option<nat>, k: nat)
    requires i < |s| && s[i] == '\'' && TriviaEnd(s, i + 1) == At(k)
    ensures FormEnd(s, i, quote) == FormEnd(s, k, if quote.Some? then quote else Some(i))
  {
  }

  lemma QuoteInside(s: string, i: nat, quote: Option<nat>, e: nat) returns (k: nat)
    requires i < |s| && s[i] == '\'' && FormEnd(s, i, quote) == At(e)
    ensures i < k < e <= |s| && TriviaEnd(s, i + 1) == At(k) && !IsWhitespace(s[k]) && s[k] != ';'
    ensures FormEnd(s, k, if quote.Some? then quote else Some(i)) == At(e)
  {
    k := TriviaEnd(s, i + 1).end;
  }

  lemma PartQuote(s: string, a: nat, e: nat, t: string, i: nat, k: nat)
    requires Part(s, a, e, t) && a <= i < k < e && s[i] == '\'' && TriviaEnd(s, i + 1) == At(k)
    ensures t[i - a] == '\'' && TriviaEnd(t, i - a + 1) == At(k - a) && t[k - a] == s[k]
  {
    PartTrivia(s, a, e, t, i + 1);
  }

  lemma {:induction false} PartForm(s: string, a: nat, e: nat, t: string, i: nat, quote: Option<nat>,
                                    quote': Option<nat>)
    requires Part(s, a, e, t) && a <= i < e && !IsWhitespace(s[i]) && s[i] != ';'
    requires t[i - a] == s[i] && FormEnd(s, i, quote) == At(e)
    ensures FormEnd(t, i - a, quote') == At(|t|)
    decreases |s| - i
  {
    if s[i] == '\'' {
      var k := QuoteInside(s, i, quote, e);
      PartQuote(s, a, e, t, i, k);
      QuoteFirst(t, i - a, quote', k - a);
      PartForm(s, a, e, t, k, if quote.Some? then quote else Some(i), if quote'.Some? then quote' else Some(i - a));
    } else {
      PartPlain(s, a, e, t, i, quote, quote');
    }
  }

  lemma PartPlain(s: string, a: nat, e: nat, t: string, i: nat, quote: Option<nat>, quote': Option<nat>)
    requires Part(s, a, e, t) && a <= i < |s| && !IsWhitespace(s[i]) && s[i] != ';' && s[i] != '\''
    requires i < e && t[i - a] == s[i] && FormEnd(s, i, quote) == At(e)
    ensures FormEnd(t, i - a, quote') == At(|t|)
  {
    if s[i] == '(' {
      PartList(s, a, e, t, i, 0, i, i - a);
    } else if s[i] == '"' {
      PartString(s, a, e, t, i + 1, i, i - a);
    } else {
      PartAtom(s, a, e, t, i);
    }
  }

  /** The text of a form, scanned on its own, is that one form. */
  lemma FormAlone(s: string, i: nat, start: nat, end: nat)
    requires i <= |s| && NextForm(s, i) == Form(start, end)
    ensures FormsFrom(s[start..end], 0) == [Form(0, end - start)]
  {
    var t := s[start..end];
    assert t[0] == s[start];
    PartForm(s, start, end, t, start, None, None);
    assert TriviaEnd(t, 0) == At(0);
    assert NextForm(t, 0) == Form(0, |t|);
    assert TriviaEnd(t, |t|) == At(|t|);
  }
}
