/**
 The textual op chain (src/core/op_chain.cpp): the parser and the canonical printer.
 */
module OpChainText {
  import opened Chains
  import opened Texts
  import opened Numerals

  const ALL_KINDS: seq<OpKind> := [Grayscale, Invert, Brightness, Threshold, Gaussian, Sobel]

  function KindNamed(name: string): Option<OpKind> {
    if name == "grayscale" then Some(Grayscale)
    else if name == "invert" then Some(Invert)
    else if name == "brightness" then Some(Brightness)
    else if name == "threshold" then Some(Threshold)
    else if name == "gaussian" then Some(Gaussian)
    else if name == "sobel" then Some(Sobel)
    else None
  }

  /** find_spec: the table row with this name. */
  method FindSpec(name: string) returns (r: Option<OpKind>)
    ensures r == KindNamed(name)
  {
    for i := 0 to |ALL_KINDS|
      invariant forall j :: 0 <= j < i ==> Spec(ALL_KINDS[j]).name != name
    {
      if Spec(ALL_KINDS[i]).name == name {
        NamesIdentify(name, ALL_KINDS[i]);
        return Some(ALL_KINDS[i]);
      }
    }
    assert Spec(ALL_KINDS[0]).name != name && Spec(ALL_KINDS[1]).name != name && Spec(ALL_KINDS[2]).name != name
           && Spec(ALL_KINDS[3]).name != name && Spec(ALL_KINDS[4]).name != name && Spec(ALL_KINDS[5]).name != name;
    return None;
  }

  /** The names of the table are all different. */
  lemma NamesIdentify(name: string, kind: OpKind)
    ensures KindNamed(name) == Some(kind) <==> Spec(kind).name == name
  {
    if Spec(kind).name == name {
      match kind
      case Grayscale => assert name[0] == 'g' && name[1] == 'r';
      case Invert => assert name[0] == 'i';
      case Brightness => assert name[0] == 'b';
      case Threshold => assert name[0] == 't';
      case Gaussian => assert name[0] == 'g' && name[1] == 'a';
      case Sobel => assert name[0] == 's';
    }
  }

  lemma NameIsFree(kind: OpKind)
    ensures Free(Spec(kind).name) && Spec(kind).name != []
  {
    match kind
    case Grayscale => assert Free("grayscale");
    case Invert => assert Free("invert");
    case Brightness => assert Free("brightness");
    case Threshold => assert Free("threshold");
    case Gaussian => assert Free("gaussian");
    case Sobel => assert Free("sobel");
  }

  // ------------------------------------------------------------------- one token

  /** A parameter's text, read, quantized and checked against the table bounds. */
  function ReadParam(kind: OpKind, text: string): Option<real> {
    var value := ParseNumber(text);
    if !Spec(kind).takesParam || value.None? then None
    else
      var q := QuantizeParam(value.value);
      if q < Spec(kind).minParam || q > Spec(kind).maxParam then None else Some(q)
  }

  /** A name alone takes the default; a name with a parameter takes that. */
  function ReadOp(name: string, param: Option<string>): Option<Op> {
    var kind := KindNamed(name);
    if kind.None? then None
    else if param.None? then Some(Op(kind.value, Spec(kind.value).defaultParam))
    else
      var q := ReadParam(kind.value, param.value);
      if q.None? then None else Some(Op(kind.value, q.value))
  }

  /** One piece of the text: trimmed, then parted at its first colon. */
  function ParseToken(piece: string): Option<Op> {
    var token := Trimmed(piece);
    var colon := Find(token, ':', 0);
    if token == [] then None
    else if colon == |token| then ReadOp(Trimmed(token), None)
    else ReadOp(Trimmed(token[..colon]), Some(Trimmed(token[colon + 1..])))
  }

  method ParseOneToken(piece: string) returns (r: Option<Op>)
    ensures r == ParseToken(piece)
  {
    var token := Trim(piece);
    if token == [] {
      return None;
    }
    var colon := Find(token, ':', 0);
    assert colon == |token| ==> token[..colon] == token;
    var name := Trim(token[..colon]);
    var kind := FindSpec(name);
    if kind.None? {
      return None;
    }
    var op := Op(kind.value, Spec(kind.value).defaultParam);
    if colon < |token| {
      if !Spec(kind.value).takesParam {
        return None;
      }
      var parameter := Trim(token[colon + 1..]);
      var value := ParseNumber(parameter);
      if value.None? {
        return None;
      }
      var q := QuantizeParam(value.value);
      if q < Spec(kind.value).minParam || q > Spec(kind.value).maxParam {
        return None;
      }
      op := op.(param := q);
    }
    return Some(op);
  }

  lemma DefaultIsCanonical(kind: OpKind)
    ensures CanonicalOp(Op(kind, Spec(kind).defaultParam))
  {
  }

  lemma ParamIsCanonical(kind: OpKind, text: string)
    ensures ReadParam(kind, text).Some? ==> CanonicalOp(Op(kind, ReadParam(kind, text).value))
  {
    if ReadParam(kind, text).Some? {
      QuantizedIsCanonical(ParseNumber(text).value);
    }
  }

  lemma ReadIsCanonical(name: string, param: Option<string>)
    ensures ReadOp(name, param).Some? ==> CanonicalOp(ReadOp(name, param).value)
  {
    if ReadOp(name, param).Some? {
      DefaultIsCanonical(KindNamed(name).value);
      if param.Some? {
        ParamIsCanonical(KindNamed(name).value, param.value);
      }
    }
  }

  /** An accepted operation is already canonical and inside its table bounds. */
  lemma TokenIsCanonical(piece: string)
    ensures ParseToken(piece).Some? ==> CanonicalOp(ParseToken(piece).value)
  {
    var token := Trimmed(piece);
    var colon := Find(token, ':', 0);
    if colon == |token| {
      ReadIsCanonical(Trimmed(token), None);
    } else {
      ReadIsCanonical(Trimmed(token[..colon]), Some(Trimmed(token[colon + 1..])));
    }
  }

  // ----------------------------------------------------------------- whole chains

  function Parse(text: string): Option<OpChain> {
    if Trimmed(text) == [] then Some([]) else ParsePieces(Split(Trimmed(text), 0), ParseToken)
  }

  /** parse_op_chain: one piece per turn, from `position` to the next comma. */
  method ParseOpChain(text: string) returns (r: Option<OpChain>)
    ensures r == Parse(text)
  {
    var chain: OpChain := [];
    var body := Trim(text);
    if body == [] {
      return Some(chain);
    }
    r := ParsePiecesOf(body, ParseToken);
  }

  /** The loop over the pieces of a trimmed, non-empty text. */
  method ParsePiecesOf(body: string, ghost parse: string -> Option<Op>) returns (r: Option<OpChain>)
    requires forall s {:trigger parse(s)} :: parse(s) == ParseToken(s)
    ensures r == ParsePieces(Split(body, 0), parse)
  {
    var chain: OpChain := [];
    var position := 0;
    ghost var taken: seq<string> := [];
    while position <= |body|
      invariant At(body, position, taken, chain, parse)
    {
      var comma := Find(body, ',', position);
      var piece := body[position..comma];
      var op := ParseOneToken(piece);
      if op.None? {
        Spoil(body, position, taken, chain, parse, piece);
        return None;
      }
      Advance(body, position, taken, chain, parse, piece);
      taken := taken + [piece];
      chain := chain + [op.value];
      position := comma + 1;
    }
    AtEnd(body, position, taken, chain, parse);
    return Some(chain);
  }

  /** Whatever the parser accepts is canonical, one operation per piece, in order. */
  lemma ParseIsCanonical(text: string)
    ensures Parse(text).Some? ==> CanonicalChain(Parse(text).value)
    ensures Parse(text).Some? && Trimmed(text) != [] ==>
              |Parse(text).value| == |Split(Trimmed(text), 0)|
              && forall i :: 0 <= i < |Parse(text).value| ==> ParseToken(Split(Trimmed(text), 0)[i]) == Some(Parse(text).value[i])
  {
    var pieces := Split(Trimmed(text), 0);
    if Parse(text).Some? && Trimmed(text) != [] {
      ParseIsPiecewise(pieces, ParseToken);
      forall i | 0 <= i < |Parse(text).value| ensures CanonicalOp(Parse(text).value[i]) {
        assert ParseToken(pieces[i]) == Some(Parse(text).value[i]);
        TokenIsCanonical(pieces[i]);
      }
    }
  }

  // ------------------------------------------------------------------ printing

  function OpText(op: Op): string {
    if Spec(op.kind).takesParam then Spec(op.kind).name + ":" + ParamText(op.param) else Spec(op.kind).name
  }

  function ChainText(chain: OpChain): string {
    if chain == [] then ""
    else if |chain| == 1 then OpText(chain[0])
    else ChainText(chain[..|chain| - 1]) + "," + OpText(chain[|chain| - 1])
  }

  /** One operation appended to the text so far. */
  method AppendOp(before: string, op: Op) returns (text: string)
    ensures text == before + OpText(op)
  {
    text := before + Spec(op.kind).name;
    if Spec(op.kind).takesParam {
      text := text + ":";
      var param := FormatParam(op.param);
      text := text + param;
      assert text == before + (Spec(op.kind).name + ":" + param);
    }
  }

  method CanonicalString(chain: OpChain) returns (text: string)
    ensures text == ChainText(chain)
  {
    text := "";
    for i := 0 to |chain|
      invariant text == ChainText(chain[..i]) && (text == "" <==> i == 0)
    {
      OpTextIsWhole(chain[i]);
      assert chain[..i + 1][..i] == chain[..i];
      if text != "" {
        text := text + ",";
      }
      text := AppendOp(text, chain[i]);
    }
    assert chain[..|chain|] == chain;
  }

  /** A text with no comma and no space. */
  predicate Whole(s: string) {
    s != [] && forall i :: 0 <= i < |s| ==> s[i] != ',' && !IsSpace(s[i])
  }

  lemma JoinedIsWhole(name: string, param: string)
    requires Free(name) && Free(param) && name != []
    ensures Whole(name + ":" + param) && Whole(name)
  {
    var t := name + ":" + param;
    forall i | 0 <= i < |t| ensures t[i] != ',' && !IsSpace(t[i]) {
      assert t[i] == if i < |name| then name[i] else if i == |name| then ':' else param[i - |name| - 1];
    }
  }

  lemma OpTextIsWhole(op: Op)
    ensures Whole(OpText(op))
  {
    NameIsFree(op.kind);
    ParamTextIsFree(op.param);
    JoinedIsWhole(Spec(op.kind).name, ParamText(op.param));
  }

  /** A name, a colon and a number are taken apart where they were put together. */
  lemma TokenSplits(name: string, param: string)
    requires Free(name) && Free(param) && name != [] && param != []
    ensures ParseToken(name + ":" + param) == ReadOp(name, Some(param))
  {
    var t := name + ":" + param;
    JoinedIsWhole(name, param);
    FreeIsTrimmed(t);
    assert forall j :: 0 <= j < |name| ==> t[j] == name[j];
    FindAt(t, ':', 0, |name|);
    assert t[..|name|] == name && t[|name| + 1..] == param;
    FreeIsTrimmed(name);
    FreeIsTrimmed(param);
  }

  lemma NameAlone(name: string)
    requires Free(name) && name != []
    ensures ParseToken(name) == ReadOp(name, None)
  {
    FreeIsTrimmed(name);
    FindNone(name, ':', 0);
  }

  lemma ParamReadsBack(op: Op)
    requires CanonicalOp(op) && Spec(op.kind).takesParam
    ensures ReadParam(op.kind, ParamText(op.param)) == Some(op.param)
  {
    ParamRoundTrips(op.param);
  }

  lemma NameReadsBack(kind: OpKind, text: string)
    ensures ReadOp(Spec(kind).name, None) == Some(Op(kind, Spec(kind).defaultParam))
    ensures ReadParam(kind, text).Some? ==> ReadOp(Spec(kind).name, Some(text)) == Some(Op(kind, ReadParam(kind, text).value))
  {
    NamesIdentify(Spec(kind).name, kind);
  }

  lemma TokenRoundTrips(op: Op)
    requires CanonicalOp(op)
    ensures ParseToken(OpText(op)) == Some(op)
  {
    var name, param := Spec(op.kind).name, ParamText(op.param);
    NameIsFree(op.kind);
    NameReadsBack(op.kind, param);
    if Spec(op.kind).takesParam {
      ParamTextIsFree(op.param);
      ParamReadsBack(op);
      TokenSplits(name, param);
    } else {
      NameAlone(name);
    }
  }

  predicate NoEdgeSpace(s: string) {
    s != [] && !IsSpace(s[0]) && !IsSpace(s[|s| - 1])
  }

  lemma {:induction false} TextHasNoEdgeSpace(chain: OpChain)
    requires chain != []
    ensures NoEdgeSpace(ChainText(chain))
    decreases |chain|
  {
    OpTextIsWhole(chain[|chain| - 1]);
    if |chain| > 1 {
      TextHasNoEdgeSpace(chain[..|chain| - 1]);
    }
  }

  lemma {:induction false} TextSplits(chain: OpChain)
    requires chain != []
    ensures Split(ChainText(chain), 0) == Mapped(chain, OpText)
    decreases |chain|
  {
    var init, text := chain[..|chain| - 1], OpText(chain[|chain| - 1]);
    OpTextIsWhole(chain[|chain| - 1]);
    if |chain| == 1 {
      LonePiece(text);
    } else {
      TextSplits(init);
      SplitOneMore(ChainText(init), text, ChainText(chain), 0);
      MappedOneMore(chain, OpText);
    }
  }

  /** Parsing the canonical text of a canonical chain gives that chain back. */
  lemma ParseUndoesPrint(chain: OpChain)
    requires CanonicalChain(chain)
    ensures Parse(ChainText(chain)) == Some(chain)
  {
    if chain != [] {
      TextSplits(chain);
      TextHasNoEdgeSpace(chain);
      FreeIsTrimmed(ChainText(chain));
      forall i | 0 <= i < |chain| ensures ParseToken(Mapped(chain, OpText)[i]) == Some(chain[i]) {
        TokenRoundTrips(chain[i]);
      }
      ParseIsPiecewise(Mapped(chain, OpText), ParseToken);
      assert ParsePieces(Mapped(chain, OpText), ParseToken).value == chain;
    }
  }

  /** Two accepted texts have one canonical text exactly when they ask for one chain. */
  lemma CanonicalTextIdentifies(a: string, b: string)
    requires Parse(a).Some? && Parse(b).Some?
    ensures ChainText(Parse(a).value) == ChainText(Parse(b).value) <==> Parse(a).value == Parse(b).value
    ensures Parse(ChainText(Parse(a).value)) == Parse(a)
  {
    ParseIsCanonical(a);
    ParseIsCanonical(b);
    ParseUndoesPrint(Parse(a).value);
    ParseUndoesPrint(Parse(b).value);
  }
}
