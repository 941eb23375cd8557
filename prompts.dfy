/** The six prompt builders of `gem_prompts.py`. Each one concatenates constant
    instruction blocks, an optional "additional context" segment and the payload
    (an SRT excerpt, a plain-text chunk or a transcript). The instruction blocks are
    `textwrap.dedent` applied to literals; their text plays no part in any property
    here, so each is an uninitialised constant. */
module Prompts {
  import opened Strings

  /** The builders, so that properties shared by all six can be stated once. */
  datatype Builder =
    | FixSrt
    | TranslateSrt
    | Summary
    | YoutubeSeo
    | YoutubeChapters
    | TechnicalExplanation

  // Dedented instruction and example blocks, one per builder.
  const FixInitial: string
  const FixExample: string
  const TranslateInitial: string
  const TranslateExample: string
  const SummaryInitial: string
  const SummaryExample: string
  const SeoInitial: string
  const SeoExample: string
  const ChaptersInitial: string
  const ChaptersExample: string
  const ChaptersEnding: string
  const TechnicalInitial: string

  /** The chapters builder dedents its context block after interpolating the
      context into it, so the result depends on the context's own indentation. */
  const ChaptersContextBlock: string -> string

  const FixEnding := "Seu trabalho começa a seguir. Revise o seguinte trecho SRT:\n\n"
  const TranslateEnding := "Seu trabalho começa a seguir. Traduza o seguinte trecho SRT:\n\n"
  const SummaryEnding := "Seu trabalho começa a seguir. Resuma o seguinte trecho de texto puro:\n\n"
  const SeoEnding := "Seu trabalho começa a seguir. Este é o conteúdo base:\n\n"
  const TechnicalEnding := "A seguir está o trecho que você deve explicar tecnicamente:\n\n"

  const ContextLabel := "Contexto adicional: "

  /** The `if additional_context:` rebinding: an empty context stays empty, any
      other is labelled and closed by `closing`. */
  function WrapContext(ctx: string, closing: string): (r: string)
    ensures ctx == "" <==> r == ""
    ensures ctx != "" ==> |r| == |ContextLabel| + |ctx| + |closing|
    ensures ctx != "" ==> r[..|ContextLabel|] == ContextLabel && EndsWith(r, closing)
  {
    if ctx == "" then "" else ContextLabel + ctx + closing
  }

  /** The chapters builder's context segment: empty for an empty context,
      otherwise the dedented block. */
  function ChaptersContext(ctx: string): (r: string)
    ensures ctx == "" ==> r == ""
  {
    if ctx == "" then "" else ChaptersContextBlock(ctx)
  }

  function FixSrtPrompt(textSrt: string, additionalContext: string := ""): (r: string)
    ensures EndsWith(r, textSrt)
    ensures additionalContext == "" ==> r == FixInitial + FixExample + FixEnding + textSrt
  {
    FixInitial + WrapContext(additionalContext, "\n") + FixExample + FixEnding + textSrt
  }

  function TranslateSrtPrompt(textSrt: string, additionalContext: string := ""): (r: string)
    ensures EndsWith(r, textSrt)
    ensures additionalContext == "" ==> r == TranslateInitial + TranslateExample + TranslateEnding + textSrt
  {
    TranslateInitial + WrapContext(additionalContext, "\n") + TranslateExample + TranslateEnding + textSrt
  }

  function SummaryPrompt(textChunk: string, additionalContext: string := ""): (r: string)
    ensures EndsWith(r, textChunk)
    ensures additionalContext == "" ==> r == SummaryInitial + SummaryExample + SummaryEnding + textChunk
  {
    SummaryInitial + WrapContext(additionalContext, "\n\n") + SummaryExample + SummaryEnding + textChunk
  }

  function YoutubeSeoPrompt(textChunk: string, additionalContext: string := ""): (r: string)
    ensures EndsWith(r, textChunk)
    ensures additionalContext == "" ==> r == SeoInitial + SeoExample + SeoEnding + textChunk
  {
    SeoInitial + WrapContext(additionalContext, "\n\n") + SeoExample + SeoEnding + textChunk
  }

  function YoutubeChaptersPrompt(textSrt: string, additionalContext: string := ""): (r: string)
    ensures EndsWith(r, textSrt)
    ensures additionalContext == "" ==> r == ChaptersInitial + ChaptersExample + ChaptersEnding + textSrt
  {
    ChaptersInitial + ChaptersContext(additionalContext) + ChaptersExample + ChaptersEnding + textSrt
  }

  /** The only builder without an example block: the context sits between the
      instructions and the ending. */
  function TechnicalExplanationPrompt(transcriptText: string, additionalContext: string := ""): (r: string)
    ensures EndsWith(r, transcriptText)
    ensures additionalContext == "" ==> r == TechnicalInitial + TechnicalEnding + transcriptText
  {
    TechnicalInitial + WrapContext(additionalContext, "\n\n---\n\n") + TechnicalEnding + transcriptText
  }

  /** Any builder by name. */
  function Build(b: Builder, payload: string, ctx: string): (r: string)
    ensures EndsWith(r, payload)
  {
    match b
    case FixSrt => FixSrtPrompt(payload, ctx)
    case TranslateSrt => TranslateSrtPrompt(payload, ctx)
    case Summary => SummaryPrompt(payload, ctx)
    case YoutubeSeo => YoutubeSeoPrompt(payload, ctx)
    case YoutubeChapters => YoutubeChaptersPrompt(payload, ctx)
    case TechnicalExplanation => TechnicalExplanationPrompt(payload, ctx)
  }

  /** The instruction block each builder starts with. */
  function Head(b: Builder): string
  {
    match b
    case FixSrt => FixInitial
    case TranslateSrt => TranslateInitial
    case Summary => SummaryInitial
    case YoutubeSeo => SeoInitial
    case YoutubeChapters => ChaptersInitial
    case TechnicalExplanation => TechnicalInitial
  }

  /** What follows the context: the example block (none for the technical
      explanation) and the ending line. */
  function Tail(b: Builder): string
  {
    match b
    case FixSrt => FixExample + FixEnding
    case TranslateSrt => TranslateExample + TranslateEnding
    case Summary => SummaryExample + SummaryEnding
    case YoutubeSeo => SeoExample + SeoEnding
    case YoutubeChapters => ChaptersExample + ChaptersEnding
    case TechnicalExplanation => TechnicalEnding
  }

  /** The text that closes a labelled context: one newline in the SRT fix and
      translation prompts, a blank line in the summary and SEO prompts, a blank
      line, a rule and a blank line in the technical explanation prompt. */
  function Closing(b: Builder): string
  {
    match b
    case FixSrt => "\n"
    case TranslateSrt => "\n"
    case TechnicalExplanation => "\n\n---\n\n"
    case _ => "\n\n"
  }

  /** The context segment each builder inserts. */
  function ContextSegment(b: Builder, ctx: string): string
  {
    if b == YoutubeChapters then ChaptersContext(ctx) else WrapContext(ctx, Closing(b))
  }

  /** Segment order: instructions, context, example and ending, payload. */
  lemma Layout(b: Builder, payload: string, ctx: string)
    ensures Build(b, payload, ctx) == Head(b) + ContextSegment(b, ctx) + Tail(b) + payload
  {
    var h, c := Head(b), ContextSegment(b, ctx);
    match b
    case FixSrt => Regroup(h, c, FixExample, FixEnding, payload);
    case TranslateSrt => Regroup(h, c, TranslateExample, TranslateEnding, payload);
    case Summary => Regroup(h, c, SummaryExample, SummaryEnding, payload);
    case YoutubeSeo => Regroup(h, c, SeoExample, SeoEnding, payload);
    case YoutubeChapters => Regroup(h, c, ChaptersExample, ChaptersEnding, payload);
    case TechnicalExplanation =>
  }

  /** The example block and the ending line read as one tail. */
  lemma Regroup(h: string, c: string, example: string, ending: string, payload: string)
    ensures h + c + example + ending + payload == h + c + (example + ending) + payload
  {
  }

  /** With no context the prompt is the constant segments and the payload, and no
      context label appears among the segments. */
  lemma NoContextLayout(b: Builder, payload: string)
    ensures Build(b, payload, "") == Head(b) + Tail(b) + payload
  {
    Layout(b, payload, "");
    assert ContextSegment(b, "") == "";
    assert Head(b) + "" == Head(b);
  }

  /** With a context, every builder but the chapters one inserts exactly the
      labelled context, closed by its own closing text. */
  lemma ContextLayout(b: Builder, payload: string, ctx: string)
    requires b != YoutubeChapters && ctx != ""
    ensures Build(b, payload, ctx) == Head(b) + (ContextLabel + ctx + Closing(b)) + Tail(b) + payload
  {
    Layout(b, payload, ctx);
  }

  /** What a builder puts before the payload. */
  function Prefix(b: Builder, ctx: string): string
  {
    Head(b) + ContextSegment(b, ctx) + Tail(b)
  }

  /** For a fixed builder and context, every prompt is one fixed prefix followed
      by the payload. */
  lemma PromptIsPrefixPlusPayload(b: Builder, payload: string, ctx: string)
    ensures Build(b, payload, ctx) == Prefix(b, ctx) + payload
  {
    Layout(b, payload, ctx);
  }

  /** For a fixed builder and context, distinct payloads give distinct prompts. */
  lemma PayloadInjective(b: Builder, ctx: string, p1: string, p2: string)
    requires Build(b, p1, ctx) == Build(b, p2, ctx)
    ensures p1 == p2
  {
    PromptIsPrefixPlusPayload(b, p1, ctx);
    PromptIsPrefixPlusPayload(b, p2, ctx);
    var n := |Prefix(b, ctx)|;
    assert p1 == (Prefix(b, ctx) + p1)[n..];
    assert p2 == (Prefix(b, ctx) + p2)[n..];
  }

  /** Removing a common head and tail leaves the middles equal. */
  lemma CancelEnds(head: string, x: string, y: string, tail: string)
    requires head + x + tail == head + y + tail
    ensures x == y
  {
    var s := head + x + tail;
    assert |x| == |y|;
    assert x == s[|head|..|head| + |x|];
    assert y == (head + y + tail)[|head|..|head| + |y|];
  }

  /** Removing a common tail leaves the heads equal. */
  lemma CancelTail(x: string, y: string, tail: string)
    requires x + tail == y + tail
    ensures x == y
  {
    assert x == (x + tail)[..|x|];
    assert y == (y + tail)[..|y|];
  }

  /** Wrapping is injective: a labelled context determines the context. */
  lemma WrapInjective(c1: string, c2: string, closing: string)
    requires WrapContext(c1, closing) == WrapContext(c2, closing)
    ensures c1 == c2
  {
    if c1 != "" && c2 != "" {
      CancelEnds(ContextLabel, c1, c2, closing);
    }
  }

  /** Except for the chapters builder, whose context block is dedented, a prompt
      determines the context that went into it. */
  lemma ContextDetermined(b: Builder, payload: string, c1: string, c2: string)
    requires b != YoutubeChapters
    requires Build(b, payload, c1) == Build(b, payload, c2)
    ensures c1 == c2
  {
    PromptIsPrefixPlusPayload(b, payload, c1);
    PromptIsPrefixPlusPayload(b, payload, c2);
    CancelTail(Prefix(b, c1), Prefix(b, c2), payload);
    CancelEnds(Head(b), ContextSegment(b, c1), ContextSegment(b, c2), Tail(b));
    WrapInjective(c1, c2, Closing(b));
  }
}
