/** The parser object: the same transitions, made in place on its fields. */
module ThinkingParsers {
  import opened Text
  import opened Thinking

  class ThinkingParser {
    const cfg: Config
    const maxTagLength: nat
    var phase: Phase
    var initialBuffer: string
    var thinkingBuffer: string
    var openTag: string
    var closeTag: string
    var isFirstThinkingChunk: bool

    predicate Valid()
    {
      UsableTags(cfg.openTags) && maxTagLength == HoldBack(cfg.openTags)
    }

    function Abs(): State
      reads this
    {
      State(phase, initialBuffer, thinkingBuffer, openTag, closeTag, isFirstThinkingChunk)
    }

    constructor (handling: Handling, initialBufferSize: int, openTags: seq<string>)
      requires UsableTags(openTags)
      ensures Valid() && cfg == Config(handling, initialBufferSize, openTags) && Abs() == INITIAL
    {
      var maxTagLen := 0;
      for i := 0 to |openTags|
        invariant maxTagLen == MaxLength(openTags[..i])
      {
        assert openTags[..i + 1][..i] == openTags[..i];
        if |openTags[i]| > maxTagLen { maxTagLen := |openTags[i]|; }
      }
      assert openTags[..|openTags|] == openTags;
      cfg := Config(handling, initialBufferSize, openTags);
      maxTagLength := maxTagLen * 2;
      phase, initialBuffer, thinkingBuffer := PreContent, "", "";
      openTag, closeTag, isFirstThinkingChunk := "", "", true;
    }

    method Feed(text: string) returns (thinking: string, content: string)
      requires Valid()
      modifies this
      ensures (Abs(), thinking, content) == Thinking.Feed(cfg, old(Abs()), text)
    {
      if text == "" { return "", ""; }
      match phase {
        case PreContent => thinking, content := HandlePreContent(text);
        case InThinking =>
          thinkingBuffer := thinkingBuffer + text;
          thinking, content := ProcessThinkingBuffer();
        case Streaming => return "", text;
      }
    }

    method Finish() returns (thinking: string, content: string)
      modifies this
      ensures (thinking, content) == Thinking.Finish(cfg, old(Abs()))
      ensures Abs() == old(Abs()).(initial := if old(phase) == PreContent then "" else old(initialBuffer),
                                   buffer := if old(phase) == InThinking then "" else old(thinkingBuffer))
    {
      match phase {
        case PreContent =>
          thinking, content := "", initialBuffer;
          initialBuffer := "";
        case InThinking =>
          var result := thinkingBuffer;
          thinkingBuffer := "";
          thinking, content := Output(cfg.handling, openTag, closeTag, result, isFirstThinkingChunk, true), "";
        case Streaming => thinking, content := "", "";
      }
    }

    method Reset()
      modifies this
      ensures Abs() == INITIAL
    {
      phase, initialBuffer, thinkingBuffer := PreContent, "", "";
      openTag, closeTag, isFirstThinkingChunk := "", "", true;
    }

    method HandlePreContent(text: string) returns (thinking: string, content: string)
      requires Valid() && phase == PreContent
      modifies this
      ensures (Abs(), thinking, content) == PreContentStep(cfg, old(Abs()), text)
    {
      initialBuffer := initialBuffer + text;
      var buffer := initialBuffer;
      var stripped := TrimLeft(buffer);
      var i := MatchOpenTag(stripped);
      if i >= 0 {
        var tag := cfg.openTags[i];
        phase := InThinking;
        openTag, closeTag := tag, "</" + tag[1..];
        thinkingBuffer := thinkingBuffer + stripped[|tag|..];
        initialBuffer := "";
        thinking, content := ProcessThinkingBuffer();
        return;
      }
      var growing := MatchPartialTag(stripped);
      if growing { return "", ""; }
      var couldBe := CouldBeTagPrefix(stripped);
      if |buffer| > cfg.initialBufferSize || !couldBe {
        phase, initialBuffer := Streaming, "";
        return "", buffer;
      }
      return "", "";
    }

    /** The first loop of handlePreContent: the first tag the text starts with, or -1. */
    method MatchOpenTag(stripped: string) returns (k: int)
      ensures k == FindTag(cfg.openTags, stripped)
    {
      for i := 0 to |cfg.openTags|
        invariant forall j :: 0 <= j < i ==> !(cfg.openTags[j] <= stripped)
      {
        if cfg.openTags[i] <= stripped { return i; }
      }
      return -1;
    }

    /** Its second loop: whether the text is a proper beginning of some tag. */
    method MatchPartialTag(stripped: string) returns (growing: bool)
      ensures growing == Growing(cfg.openTags, stripped)
    {
      for i := 0 to |cfg.openTags|
        invariant forall j :: 0 <= j < i ==> !(stripped <= cfg.openTags[j] && |stripped| < |cfg.openTags[j]|)
      {
        if stripped <= cfg.openTags[i] && |stripped| < |cfg.openTags[i]| { return true; }
      }
      return false;
    }

    method ProcessThinkingBuffer() returns (thinking: string, content: string)
      requires Valid()
      modifies this
      ensures (Abs(), thinking, content) == ProcessBuffer(cfg, old(Abs()))
    {
      var buffer := thinkingBuffer;
      if closeTag == "" { return "", ""; }
      var closeIdx := Index(buffer, closeTag);
      if closeIdx >= 0 {
        var afterTag := buffer[closeIdx + |closeTag|..];
        thinking := Output(cfg.handling, openTag, closeTag, buffer[..closeIdx], isFirstThinkingChunk, true);
        isFirstThinkingChunk := false;
        phase, thinkingBuffer := Streaming, "";
        return thinking, TrimLeft(afterTag);
      }
      if |buffer| > maxTagLength {
        var cut := |buffer| - maxTagLength;
        thinking := Output(cfg.handling, openTag, closeTag, buffer[..cut], isFirstThinkingChunk, false);
        isFirstThinkingChunk := false;
        thinkingBuffer := buffer[cut..];
        return thinking, "";
      }
      return "", "";
    }

    method CouldBeTagPrefix(text: string) returns (could: bool)
      ensures could == Thinking.CouldBeTagPrefix(cfg.openTags, text)
    {
      if text == "" { return true; }
      for i := 0 to |cfg.openTags|
        invariant forall j :: 0 <= j < i ==> !(text <= cfg.openTags[j])
      {
        if text <= cfg.openTags[i] { return true; }
      }
      return false;
    }
  }
}
