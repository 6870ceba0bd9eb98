/** The character tokenizer (minivllm/tokenizer.py). */
module CharacterTokenizer {
  import opened Protocol
  import opened Engine

  const Offset := 3

  /** Text is a sequence of code points. */
  predicate IsText(text: Text) { forall i :: 0 <= i < |text| ==> 0 <= text[i] < 0x110000 }

  function Encode(text: Text): (tokens: seq<Token>)
    ensures |tokens| == |text|
  {
    seq(|text|, i requires 0 <= i < |text| => text[i] + Offset)
  }

  /** Control tokens decode to nothing. */
  function Decode(tokens: seq<Token>): Text {
    if tokens == [] then []
    else
      var last := tokens[|tokens| - 1];
      Decode(tokens[..|tokens| - 1]) + if last >= Offset then [last - Offset] else []
  }

  /** `chr` accepts every visible token of the sequence. */
  predicate Decodable(tokens: seq<Token>) { forall i :: 0 <= i < |tokens| ==> tokens[i] < Offset + 0x110000 }

  /** `decode`; `None` is the ValueError of `chr`. */
  function TryDecode(tokens: seq<Token>): Option<Text> { if Decodable(tokens) then Some(Decode(tokens)) else None }

  /** Tokens that survive decoding. */
  function Visible(tokens: seq<Token>): seq<Token> {
    if tokens == [] then []
    else
      var last := tokens[|tokens| - 1];
      Visible(tokens[..|tokens| - 1]) + if last >= Offset then [last] else []
  }

  /** Encoding is lossless, and never produces a token that decoding refuses. */
  lemma {:induction false} DecodeEncode(text: Text)
    requires IsText(text)
    ensures TryDecode(Encode(text)) == Some(text)
    ensures forall i :: 0 <= i < |text| ==> Encode(text)[i] == text[i] + 3
  {
    EncodeDecodable(text);
    DecodeEncoded(text);
  }

  lemma EncodeDecodable(text: Text)
    requires IsText(text)
    ensures Decodable(Encode(text))
  {}

  lemma {:induction false} DecodeEncoded(text: Text)
    requires IsText(text)
    ensures Decode(Encode(text)) == text
  {
    if text != [] {
      var n := |text| - 1;
      DecodeEncoded(text[..n]);
      assert Encode(text)[..n] == Encode(text[..n]);
    }
  }

  /** Decoding fails exactly on a token above the code points; otherwise it gives text, and re-encoding
      it drops exactly the control tokens. */
  lemma EncodeDecode(tokens: seq<Token>)
    ensures TryDecode(tokens).Some? <==> IsText(Decode(tokens))
    ensures Encode(Decode(tokens)) == Visible(tokens)
    ensures (forall i :: 0 <= i < |tokens| ==> tokens[i] >= 3) ==> Encode(Decode(tokens)) == tokens
  {
    hide IsText, Decodable, Decode, Encode, Visible;
    DecodesToText(tokens);
    ReEncode(tokens);
    if (forall i :: 0 <= i < |tokens| ==> tokens[i] >= Offset) { AllVisible(tokens); }
  }

  lemma {:induction false} DecodesToText(tokens: seq<Token>)
    ensures IsText(Decode(tokens)) <==> Decodable(tokens)
  {
    if tokens != [] {
      hide IsText, Decodable;
      var last := tokens[|tokens| - 1];
      DecodesToText(tokens[..|tokens| - 1]);
      TextConcat(Decode(tokens[..|tokens| - 1]), if last >= Offset then [last - Offset] else []);
      OneText(last - Offset);
      DecodableSplit(tokens);
    }
  }

  lemma EncodeConcat(a: Text, b: Text)
    ensures Encode(a + b) == Encode(a) + Encode(b)
  {}

  lemma {:induction false} ReEncode(tokens: seq<Token>)
    ensures Encode(Decode(tokens)) == Visible(tokens)
  {
    if tokens != [] {
      var front, last := tokens[..|tokens| - 1], tokens[|tokens| - 1];
      ReEncode(front);
      EncodeConcat(Decode(front), if last >= Offset then [last - Offset] else []);
      assert last >= Offset ==> Encode([last - Offset]) == [last];
    }
  }

  lemma {:induction false} AllVisible(tokens: seq<Token>)
    requires forall i :: 0 <= i < |tokens| ==> tokens[i] >= Offset
    ensures Visible(tokens) == tokens
  {
    if tokens != [] {
      AllVisible(tokens[..|tokens| - 1]);
      assert tokens == tokens[..|tokens| - 1] + [tokens[|tokens| - 1]];
    }
  }

  lemma OneText(point: int)
    ensures IsText([point]) <==> 0 <= point < 0x110000
    ensures IsText([])
  {
    assert [point][0] == point;
  }

  lemma TextConcat(a: Text, b: Text)
    ensures IsText(a + b) <==> IsText(a) && IsText(b)
  {
    if IsText(a + b) {
      assert forall i :: 0 <= i < |a| ==> (a + b)[i] == a[i];
      assert forall i :: 0 <= i < |b| ==> (a + b)[|a| + i] == b[i];
    }
  }

  lemma DecodableSplit(tokens: seq<Token>)
    requires tokens != []
    ensures Decodable(tokens) <==> Decodable(tokens[..|tokens| - 1]) && tokens[|tokens| - 1] < Offset + 0x110000
  {
    var n := |tokens| - 1;
    assert forall i :: 0 <= i < n ==> tokens[..n][i] == tokens[i];
  }

  lemma {:induction false} DecodeConcat(a: seq<Token>, b: seq<Token>)
    ensures Decode(a + b) == Decode(a) + Decode(b)
  {
    if b == [] {
      assert a + b == a;
    } else {
      var n := |b| - 1;
      DecodeConcat(a, b[..n]);
      assert (a + b)[..|a| + n] == a + b[..n];
    }
  }

  ghost predicate DecodesCharacters(m: Model) { forall s: seq<Token> :: m.decode(s) == Decode(s) }

  lemma CharacterDelta(m: Model, s: seq<Token>, t: Token)
    requires DecodesCharacters(m)
    ensures m.decode(s) <= m.decode(s + [t]) && TextDelta(m, s, s + [t], t) == Decode([t])
  {
    hide Decode;
    DecodeConcat(s, [t]);
  }

  lemma CharactersAppend(m: Model, output: seq<Token>)
    requires DecodesCharacters(m)
    ensures Appends(m, output)
  {
    hide DecodesCharacters;
    assert m.decode([]) == [] by { EmptyText(m); }
    forall k | 0 <= k < |output| ensures m.decode(output[..k]) <= m.decode(output[..k + 1]) {
      assert output[..k + 1] == output[..k] + [output[k]];
      CharacterDelta(m, output[..k], output[k]);
    }
  }

  lemma EmptyText(m: Model)
    requires DecodesCharacters(m)
    ensures m.decode([]) == []
  {}

  /** Decoding only appends, so the streamed deltas concatenate to the decoded output, and each
      delta is the decoding of its own token. */
  lemma CharactersIncremental(m: Model)
    requires DecodesCharacters(m)
    ensures forall output: seq<Token> :: Appends(m, output)
    ensures forall s: seq<Token>, t: Token :: TextDelta(m, s, s + [t], t) == Decode([t])
  {
    hide DecodesCharacters, Decode, Appends, TextDelta;
    forall output: seq<Token> ensures Appends(m, output) { CharactersAppend(m, output); }
    forall s: seq<Token>, t: Token ensures TextDelta(m, s, s + [t], t) == Decode([t]) { CharacterDelta(m, s, t); }
  }
}
