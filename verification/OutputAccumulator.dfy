/** Bounded command output: counting per chunk agrees with counting the whole text, however it is split. */
module OutputAccumulator {

  const MAX_CHARACTERS: nat := 4 * 1024 * 1024
  const MAX_LINES: nat := 50_000

  function Count(text: string, c: char): nat {
    if text == "" then 0 else Count(text[..|text| - 1], c) + if text[|text| - 1] == c then 1 else 0
  }

  function CrlfCount(text: string): nat {
    if |text| < 2 then 0
    else CrlfCount(text[..|text| - 1]) + if text[|text| - 2] == '\r' && text[|text| - 1] == '\n' then 1 else 0
  }

  predicate EndsWithCr(text: string) {
    text != "" && text[|text| - 1] == '\r'
  }

  predicate StartsWithLf(text: string) {
    text != "" && text[0] == '\n'
  }

  /** CR, LF and CRLF each break the line once. */
  function LineBreaks(text: string): int {
    Count(text, '\n') + Count(text, '\r') - CrlfCount(text)
  }

  lemma {:induction false} CountOfJoin(a: string, b: string, c: char)
    ensures Count(a + b, c) == Count(a, c) + Count(b, c)
    decreases |b|
  {
    if b == "" {
      assert a + b == a;
    } else {
      assert (a + b)[..|a + b| - 1] == a + b[..|b| - 1];
      CountOfJoin(a, b[..|b| - 1], c);
    }
  }

  lemma {:induction false} CrlfCountOfJoin(a: string, b: string)
    ensures CrlfCount(a + b) == CrlfCount(a) + CrlfCount(b) + if EndsWithCr(a) && StartsWithLf(b) then 1 else 0
    decreases |b|
  {
    if b == "" {
      assert a + b == a;
    } else {
      var init := b[..|b| - 1];
      assert (a + b)[..|a + b| - 1] == a + init;
      CrlfCountOfJoin(a, init);
      if |b| == 1 {
        assert init == "";
      }
    }
  }

  /** A CRLF that is split between two texts is counted once, not twice. */
  lemma LineBreaksOfJoin(a: string, b: string)
    ensures LineBreaks(a + b) == LineBreaks(a) + LineBreaks(b) - if EndsWithCr(a) && StartsWithLf(b) then 1 else 0
  {
    CountOfJoin(a, b, '\n');
    CountOfJoin(a, b, '\r');
    CrlfCountOfJoin(a, b);
  }

  lemma {:induction false} CrlfAreBreaks(text: string)
    ensures CrlfCount(text) <= Count(text, '\n')
    ensures StartsWithLf(text) ==> CrlfCount(text) < Count(text, '\n')
  {
    if text != "" {
      CrlfAreBreaks(text[..|text| - 1]);
    }
  }

  /** The line breaks met when reading the text from left to right, a CRLF as one. */
  function BreaksRead(text: string): nat {
    if text == "" then 0
    else if |text| >= 2 && text[0] == '\r' && text[1] == '\n' then 1 + BreaksRead(text[2..])
    else (if text[0] == '\r' || text[0] == '\n' then 1 else 0) + BreaksRead(text[1..])
  }

  /** The three-term count is the number of logical line breaks. */
  lemma {:induction false} LineBreaksAreThoseRead(text: string)
    ensures LineBreaks(text) == BreaksRead(text)
    decreases |text|
  {
    if text == "" {
    } else if |text| >= 2 && text[0] == '\r' && text[1] == '\n' {
      LineBreaksAreThoseRead(text[2..]);
      LineBreaksOfJoin(text[..1], text[1..]);
      LineBreaksOfJoin(text[1..2], text[2..]);
      assert text[..1] + text[1..] == text && text[1..2] + text[2..] == text[1..];
      OneCharacter(text[..1]);
      OneCharacter(text[1..2]);
    } else {
      LineBreaksAreThoseRead(text[1..]);
      LineBreaksOfJoin(text[..1], text[1..]);
      assert text[..1] + text[1..] == text;
      OneCharacter(text[..1]);
    }
  }

  lemma OneCharacter(text: string)
    requires |text| == 1
    ensures LineBreaks(text) == if text[0] == '\r' || text[0] == '\n' then 1 else 0
  {
    assert text[..|text| - 1] == "" && Count("", '\n') == 0 && Count("", '\r') == 0;
    assert Count(text, '\n') == if text[0] == '\n' then 1 else 0;
    assert Count(text, '\r') == if text[0] == '\r' then 1 else 0;
  }

  predicate Fits(text: string) {
    |text| <= MAX_CHARACTERS && LineBreaks(text) + 1 <= MAX_LINES
  }

  /** It fits with at most 4 MiB of characters on at most 50000 lines, as they are met in reading. */
  lemma FitsMeans(text: string)
    ensures Fits(text) <==> |text| <= 4_194_304 && BreaksRead(text) < 50_000
  {
    LineBreaksAreThoseRead(text);
  }

  /** What fits, fits up to any earlier point. */
  lemma FitsIsPrefixClosed(a: string, b: string)
    ensures Fits(a + b) ==> Fits(a)
  {
    LineBreaksOfJoin(a, b);
    CrlfAreBreaks(b);
  }

  function Joined(parts: seq<string>): string {
    if parts == [] then "" else Joined(parts[..|parts| - 1]) + parts[|parts| - 1]
  }

  lemma {:induction false} PrefixJoined(chunks: seq<string>, i: nat)
    requires i <= |chunks|
    ensures Fits(Joined(chunks)) ==> Fits(Joined(chunks[..i]))
  {
    if i == |chunks| {
      assert chunks[..i] == chunks;
    } else {
      var init := chunks[..|chunks| - 1];
      assert init[..i] == chunks[..i];
      PrefixJoined(init, i);
      FitsIsPrefixClosed(Joined(init), chunks[|chunks| - 1]);
    }
  }

  predicate Blank(text: string, isSpace: char -> bool) {
    forall i :: 0 <= i < |text| ==> isSpace(text[i])
  }

  datatype Built = Output(text: string) | EmptyOutput

  class BoundedOutputAccumulator {
    var parts: seq<string>
    var characterCount: nat
    var lineCount: int
    var previousEndedWithCr: bool

    function Text(): string
      reads this
    {
      Joined(parts)
    }

    ghost predicate Valid()
      reads this
    {
      && characterCount == |Text()|
      && lineCount == LineBreaks(Text()) + 1
      && (previousEndedWithCr <==> EndsWithCr(Text()))
      && Fits(Text())
    }

    constructor ()
      ensures Valid() && Text() == ""
    {
      parts, characterCount, lineCount, previousEndedWithCr := [], 0, 1, false;
    }

    /** Accepts the chunk exactly if the text with it still fits; a refused chunk changes nothing. */
    method Append(chunk: string) returns (accepted: bool)
      requires Valid()
      modifies this
      ensures Valid()
      ensures accepted <==> Fits(old(Text()) + chunk)
      ensures Text() == if accepted then old(Text()) + chunk else old(Text())
    {
      LineBreaksOfJoin(Text(), chunk);
      var characters := characterCount + |chunk|;
      var lines := lineCount + LineBreaks(chunk);
      if previousEndedWithCr && StartsWithLf(chunk) {
        lines := lines - 1;
      }
      if characters > MAX_CHARACTERS || lines > MAX_LINES {
        return false;
      }
      assert (parts + [chunk])[..|parts|] == parts;
      assert Text() + "" == Text();
      if chunk != "" {
        parts := parts + [chunk];
      }
      characterCount := characters;
      lineCount := lines;
      previousEndedWithCr := if chunk != "" then EndsWithCr(chunk) else previousEndedWithCr;
      accepted := true;
    }

    method Build(allowEmpty: bool, isSpace: char -> bool) returns (built: Built)
      ensures built.EmptyOutput? <==> !allowEmpty && forall c :: c in Text() ==> isSpace(c)
      ensures built.Output? ==> built.text == Text()
    {
      var output := "";
      for i := 0 to |parts|
        invariant output == Joined(parts[..i])
      {
        output := output + parts[i];
        assert parts[..i + 1][..i] == parts[..i];
      }
      assert parts[..|parts|] == parts;
      built := if !allowEmpty && Blank(output, isSpace) then EmptyOutput else Output(output);
    }
  }

  /** Feeding any split of a text succeeds exactly if the whole text is within both limits, and then the
      counts and the text are those of the whole. */
  method CollectChunks(chunks: seq<string>) returns (accepted: bool, accumulator: BoundedOutputAccumulator)
    ensures accepted <==> Fits(Joined(chunks))
    ensures accepted ==>
      && accumulator.Text() == Joined(chunks)
      && accumulator.characterCount == |Joined(chunks)|
      && accumulator.lineCount == LineBreaks(Joined(chunks)) + 1
  {
    accumulator := new BoundedOutputAccumulator();
    for i := 0 to |chunks|
      invariant accumulator.Valid() && fresh(accumulator)
      invariant accumulator.Text() == Joined(chunks[..i])
    {
      assert chunks[..i + 1][..i] == chunks[..i];
      PrefixJoined(chunks, i + 1);
      accepted := accumulator.Append(chunks[i]);
      if !accepted {
        return;
      }
    }
    assert chunks[..|chunks|] == chunks;
    accepted := true;
  }
}
