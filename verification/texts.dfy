/** Strings as the op-chain parser takes them apart: trimming, finding, splitting. */
module Texts {
  import opened Chains

  predicate IsSpace(c: char) {
    c == ' ' || c == '\t' || c == '\r' || c == '\n'
  }

  function TrimLeft(text: string): string {
    if text != [] && IsSpace(text[0]) then TrimLeft(text[1..]) else text
  }

  function TrimRight(text: string): string {
    if text != [] && IsSpace(text[|text| - 1]) then TrimRight(text[..|text| - 1]) else text
  }

  function Trimmed(text: string): string {
    TrimRight(TrimLeft(text))
  }

  method Trim(text: string) returns (r: string)
    ensures r == Trimmed(text)
  {
    r := text;
    while r != [] && IsSpace(r[0])
      invariant TrimLeft(r) == TrimLeft(text)
    {
      r := r[1..];
    }
    while r != [] && IsSpace(r[|r| - 1])
      invariant TrimRight(r) == Trimmed(text)
    {
      r := r[..|r| - 1];
    }
  }

  predicate AllSpaces(s: string) {
    forall i :: 0 <= i < |s| ==> IsSpace(s[i])
  }

  lemma {:induction false} LeftTrimmed(text: string) returns (front: string)
    ensures text == front + TrimLeft(text) && AllSpaces(front)
    ensures TrimLeft(text) != [] ==> !IsSpace(TrimLeft(text)[0])
    decreases |text|
  {
    front := [];
    if text != [] && IsSpace(text[0]) {
      var rest := LeftTrimmed(text[1..]);
      front := [text[0]] + rest;
    }
  }

  lemma {:induction false} RightTrimmed(text: string) returns (back: string)
    ensures text == TrimRight(text) + back && AllSpaces(back)
    ensures TrimRight(text) != [] ==> !IsSpace(TrimRight(text)[|TrimRight(text)| - 1])
    decreases |text|
  {
    back := [];
    if text != [] && IsSpace(text[|text| - 1]) {
      var rest := RightTrimmed(text[..|text| - 1]);
      back := rest + [text[|text| - 1]];
    }
  }

  /** Trimming takes spaces off both ends, all of them, and nothing else. */
  lemma TrimTakesSpaces(text: string) returns (front: string, back: string)
    ensures text == front + Trimmed(text) + back && AllSpaces(front) && AllSpaces(back)
    ensures Trimmed(text) != [] ==> !IsSpace(Trimmed(text)[0]) && !IsSpace(Trimmed(text)[|Trimmed(text)| - 1])
  {
    front := LeftTrimmed(text);
    back := RightTrimmed(TrimLeft(text));
    assert front + (Trimmed(text) + back) == front + Trimmed(text) + back;
    assert Trimmed(text) != [] ==> TrimLeft(text)[0] == Trimmed(text)[0];
  }

  /** The first position of a character at or after `from`, or the length when there is none. */
  function Find(text: string, c: char, from: nat): (i: nat)
    requires from <= |text|
    ensures from <= i <= |text|
    decreases |text| - from
  {
    if from == |text| || text[from] == c then from else Find(text, c, from + 1)
  }

  lemma {:induction false} FindAt(s: string, c: char, from: nat, i: nat)
    requires from <= i < |s| && s[i] == c && forall j :: from <= j < i ==> s[j] != c
    ensures Find(s, c, from) == i
    decreases i - from
  {
    if from < i {
      FindAt(s, c, from + 1, i);
    }
  }

  lemma {:induction false} FindNone(s: string, c: char, from: nat)
    requires from <= |s| && forall j :: from <= j < |s| ==> s[j] != c
    ensures Find(s, c, from) == |s|
    decreases |s| - from
  {
    if from < |s| {
      FindNone(s, c, from + 1);
    }
  }

  /** A character put after a text is found there, when it is not found before. */
  lemma {:induction false} FindAfter(body: string, c: char, piece: string, from: nat)
    requires from <= |body|
    ensures Find(body + [c] + piece, c, from) == Find(body, c, from)
    decreases |body| - from
  {
    var text := body + [c] + piece;
    if from < |body| {
      assert text[from] == body[from];
      FindAfter(body, c, piece, from + 1);
    } else {
      assert text[from] == c;
    }
  }

  lemma FreeIsTrimmed(s: string)
    requires s == [] || (!IsSpace(s[0]) && !IsSpace(s[|s| - 1]))
    ensures Trimmed(s) == s
  {
  }

  /** The pieces between commas, from `position` on; past the end there is none. */
  function Split(body: string, position: nat): seq<string>
    decreases |body| + 1 - position
  {
    if position > |body| then []
    else
      var comma := Find(body, ',', position);
      [body[position..comma]] + Split(body, comma + 1)
  }

  lemma SplitLast(body: string, piece: string)
    requires forall j :: 0 <= j < |piece| ==> piece[j] != ','
    ensures Split(body + [','] + piece, |body| + 1) == [piece]
  {
    var text := body + [','] + piece;
    assert forall j :: |body| + 1 <= j < |text| ==> text[j] == piece[j - |body| - 1];
    FindNone(text, ',', |body| + 1);
    assert text[|body| + 1..|text|] == piece;
    assert Split(text, |text| + 1) == [];
  }

  lemma BothEnds(first: string, middle: seq<string>, last: string)
    ensures [first] + (middle + [last]) == [first] + middle + [last]
  {
  }

  lemma SplitOnce(text: string, position: nat)
    requires position <= |text|
    ensures Find(text, ',', position) <= |text|
    ensures Split(text, position) == [text[position..Find(text, ',', position)]] + Split(text, Find(text, ',', position) + 1)
  {
  }

  lemma SameFirstPiece(body: string, piece: string, text: string, position: nat)
    requires text == body + [','] + piece && position <= |body|
    ensures var comma := Find(body, ',', position);
            && Split(text, position) == [body[position..comma]] + Split(text, comma + 1)
            && Split(body, position) == [body[position..comma]] + Split(body, comma + 1)
  {
    FindAfter(body, ',', piece, position);
    SplitOnce(text, position);
    SplitOnce(body, position);
    assert text[position..Find(body, ',', position)] == body[position..Find(body, ',', position)];
  }

  /** A piece with no comma, put after a comma, is one more piece at the end. */
  lemma {:induction false} SplitOneMore(body: string, piece: string, text: string, position: nat)
    requires text == body + [','] + piece && position <= |body|
    requires forall j :: 0 <= j < |piece| ==> piece[j] != ','
    ensures Split(text, position) == Split(body, position) + [piece]
    decreases |body| - position
  {
    var comma := Find(body, ',', position);
    SameFirstPiece(body, piece, text, position);
    if comma < |body| {
      SplitOneMore(body, piece, text, comma + 1);
      BothEnds(body[position..comma], Split(body, comma + 1), piece);
    } else {
      SplitLast(body, piece);
    }
  }

  lemma LonePiece(piece: string)
    requires forall j :: 0 <= j < |piece| ==> piece[j] != ','
    ensures Split(piece, 0) == [piece]
  {
    FindNone(piece, ',', 0);
    assert piece[0..|piece|] == piece;
  }

  function Mapped<T>(items: seq<T>, f: T -> string): (r: seq<string>)
    ensures |r| == |items|
    ensures forall i :: 0 <= i < |items| ==> r[i] == f(items[i])
  {
    seq(|items|, i requires 0 <= i < |items| => f(items[i]))
  }

  lemma MappedOneMore<T>(items: seq<T>, f: T -> string)
    requires items != []
    ensures Mapped(items, f) == Mapped(items[..|items| - 1], f) + [f(items[|items| - 1])]
  {
  }

  /** Every piece must parse, and the results are kept in order. */
  function ParsePieces<T>(pieces: seq<string>, parse: string -> Option<T>): Option<seq<T>> {
    if pieces == [] then Some([])
    else
      var front, last := ParsePieces(pieces[..|pieces| - 1], parse), parse(pieces[|pieces| - 1]);
      if front.Some? && last.Some? then Some(front.value + [last.value]) else None
  }

  lemma ParseOneMore<T>(pieces: seq<string>, parse: string -> Option<T>, piece: string)
    requires ParsePieces(pieces, parse).Some? && parse(piece).Some?
    ensures ParsePieces(pieces + [piece], parse) == Some(ParsePieces(pieces, parse).value + [parse(piece).value])
  {
    assert (pieces + [piece])[..|pieces|] == pieces;
  }

  /** A piece that does not parse spoils the whole, whatever follows it. */
  lemma {:induction false} SpoiltPiece<T>(pieces: seq<string>, parse: string -> Option<T>, i: nat)
    requires i < |pieces| && parse(pieces[i]).None?
    ensures ParsePieces(pieces, parse).None?
    decreases |pieces|
  {
    if i < |pieces| - 1 {
      SpoiltPiece(pieces[..|pieces| - 1], parse, i);
    }
  }

  /** The whole is accepted when every piece is, with one result per piece, in order. */
  lemma {:induction false} ParseIsPiecewise<T>(pieces: seq<string>, parse: string -> Option<T>)
    ensures ParsePieces(pieces, parse).Some? <==> forall i :: 0 <= i < |pieces| ==> parse(pieces[i]).Some?
    ensures ParsePieces(pieces, parse).Some? ==>
              |ParsePieces(pieces, parse).value| == |pieces|
              && forall i :: 0 <= i < |pieces| ==> parse(pieces[i]) == Some(ParsePieces(pieces, parse).value[i])
    decreases |pieces|
  {
    if pieces != [] {
      ParseIsPiecewise(pieces[..|pieces| - 1], parse);
    }
  }

  /** `taken` are the pieces before `position`, and `done` is what they parse to. */
  ghost predicate At<T>(body: string, position: nat, taken: seq<string>, done: seq<T>, parse: string -> Option<T>) {
    Split(body, 0) == taken + Split(body, position) && ParsePieces(taken, parse) == Some(done)
  }

  lemma Advance<T>(body: string, position: nat, taken: seq<string>, done: seq<T>, parse: string -> Option<T>, piece: string)
    requires At(body, position, taken, done, parse) && position <= |body|
    requires piece == body[position..Find(body, ',', position)] && parse(piece).Some?
    ensures At(body, Find(body, ',', position) + 1, taken + [piece], done + [parse(piece).value], parse)
  {
    ParseOneMore(taken, parse, piece);
  }

  lemma Spoil<T>(body: string, position: nat, taken: seq<string>, done: seq<T>, parse: string -> Option<T>, piece: string)
    requires At(body, position, taken, done, parse) && position <= |body|
    requires piece == body[position..Find(body, ',', position)] && parse(piece).None?
    ensures ParsePieces(Split(body, 0), parse).None?
  {
    SpoiltPiece(Split(body, 0), parse, |taken|);
  }

  lemma AtEnd<T>(body: string, position: nat, taken: seq<string>, done: seq<T>, parse: string -> Option<T>)
    requires At(body, position, taken, done, parse) && position > |body|
    ensures ParsePieces(Split(body, 0), parse) == Some(done)
  {
    assert taken + [] == taken;
  }
}
