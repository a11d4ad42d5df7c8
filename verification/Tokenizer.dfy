/** The tokenizer: pre-tokens, then byte pair encoding of each. Main result: decoding undoes encoding. */
module Tokenizer {
  import opened Text
  import opened Bpe
  import opened Pretoken
  import Regex

  /** The UTF-8 bytes of a text, character by character. */
  function Bytes(utf8: char -> string, text: string): string
  {
    if text == "" then "" else Bytes(utf8, text[..|text| - 1]) + utf8(text[|text| - 1])
  }

  /** They are the bytes of its characters in a row. */
  lemma {:induction false} BytesAre(utf8: char -> string, text: string)
    ensures Bytes(utf8, text) == Concat(seq(|text|, i requires 0 <= i < |text| => utf8(text[i])))
  {
    var all := seq(|text|, i requires 0 <= i < |text| => utf8(text[i]));
    if text != "" {
      var front := text[..|text| - 1];
      BytesAre(utf8, front);
      assert all[..|text| - 1] == seq(|front|, i requires 0 <= i < |front| => utf8(front[i]));
    }
  }

  function EncodePiece(ranks: Ranks, utf8: char -> string, p: string): seq<int>
  {
    Ids(ranks, MergeAll(ranks, Singles(Bytes(utf8, p))))
  }

  function EncodePieces(ranks: Ranks, utf8: char -> string, pieces: seq<string>): seq<int>
  {
    if pieces == [] then []
    else EncodePieces(ranks, utf8, pieces[..|pieces| - 1]) + EncodePiece(ranks, utf8, pieces[|pieces| - 1])
  }

  /** The specification: encode each match of the pattern by repeated merging of the best pair. */
  function Encode(ranks: Ranks, u: Classes, utf8: char -> string, text: string): seq<int>
  {
    EncodePieces(ranks, utf8, Regex.FindAll(Pattern(u), text, 0))
  }

  /** The tokens of a piece are those of any greedy merging of its bytes. */
  lemma PieceIsGreedy(ranks: Ranks, utf8: char -> string, p: string, steps: seq<seq<string>>)
    requires IsGreedy(ranks, Singles(Bytes(utf8, p)), steps)
    ensures EncodePiece(ranks, utf8, p) == Ids(ranks, LastOf(steps))
  {
    GreedyIsMergeAll(ranks, Singles(Bytes(utf8, p)), steps);
  }

  /** The loop over the pre-tokens. */
  method EncodeEach(ranks: Ranks, utf8: char -> string, pieces: seq<string>) returns (out: seq<int>)
    ensures out == EncodePieces(ranks, utf8, pieces)
  {
    out := [];
    for k := 0 to |pieces|
      invariant out == EncodePieces(ranks, utf8, pieces[..k])
    {
      assert pieces[..k + 1][..k] == pieces[..k];
      var ids := BytePairEncode(ranks, Bytes(utf8, pieces[k]));
      out := out + ids;
    }
    assert pieces[..|pieces|] == pieces;
  }

  /** EncodeOrdinary. */
  method EncodeOrdinary(ranks: Ranks, u: Classes, utf8: char -> string, text: string) returns (out: seq<int>)
    requires Sound(u)
    ensures out == Encode(ranks, u, utf8, text)
  {
    if text == "" { return []; }
    var pieces := SplitPretokens(u, text);
    out := EncodeEach(ranks, utf8, pieces);
  }

  lemma {:induction false} BytesAppend(utf8: char -> string, a: string, b: string)
    ensures Bytes(utf8, a + b) == Bytes(utf8, a) + Bytes(utf8, b)
  {
    if b == "" {
      assert a + b == a;
    } else {
      var n := |b| - 1;
      assert (a + b)[..|a| + n] == a + b[..n] && (a + b)[|a| + n] == b[n];
      BytesAppend(utf8, a, b[..n]);
      Associate(Bytes(utf8, a), Bytes(utf8, b[..n]), utf8(b[n]));
    }
  }

  /** Every byte of every character is a token of its own. */
  ghost predicate Covers(ranks: Ranks, utf8: char -> string)
  {
    forall c :: HasBytes(ranks, utf8(c))
  }

  lemma {:induction false} TextHasBytes(ranks: Ranks, utf8: char -> string, text: string)
    requires Covers(ranks, utf8)
    ensures HasBytes(ranks, Bytes(utf8, text))
  {
    if text != "" {
      TextHasBytes(ranks, utf8, text[..|text| - 1]);
      assert HasBytes(ranks, utf8(text[|text| - 1]));
    }
  }

  lemma {:induction false} DecodePieces(tokens: map<int, string>, ranks: Ranks, utf8: char -> string,
                                        pieces: seq<string>)
    requires Undoes(tokens, ranks) && Covers(ranks, utf8)
    ensures Decode(tokens, EncodePieces(ranks, utf8, pieces)) == Bytes(utf8, Concat(pieces))
  {
    if pieces != [] {
      var front, last := pieces[..|pieces| - 1], pieces[|pieces| - 1];
      DecodePieces(tokens, ranks, utf8, front);
      TextHasBytes(ranks, utf8, last);
      PieceRoundTrip(tokens, ranks, Bytes(utf8, last));
      DecodeAppend(tokens, EncodePieces(ranks, utf8, front), EncodePiece(ranks, utf8, last));
      BytesAppend(utf8, Concat(front), last);
    }
  }

  /** For every text: decoding its tokens returns its bytes, when all bytes are tokens and no two tokens
      share a rank. */
  lemma RoundTrip(tokens: map<int, string>, ranks: Ranks, u: Classes, utf8: char -> string, text: string)
    requires Sound(u) && Undoes(tokens, ranks) && Covers(ranks, utf8)
    ensures Decode(tokens, Encode(ranks, u, utf8, text)) ==
      Concat(seq(|text|, i requires 0 <= i < |text| => utf8(text[i])))
  {
    BytesAre(utf8, text);
    PiecesCover(u, text, 0);
    assert text[0..] == text;
    DecodePieces(tokens, ranks, utf8, Regex.FindAll(Pattern(u), text, 0));
  }
}
