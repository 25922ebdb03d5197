/** The request `analyze_with_llm` sends to the language model: a fixed
    system message and a user message that embeds the search term and the
    truncated page bodies. */
module Summarizer {
  import opened Text

  /** Both page bodies are cut to this many characters before they are sent. */
  const MaxBodyChars: nat := 10000

  datatype Message = Message(role: string, content: string)

  const SystemPrompt: string :=
    "You are an expert web scraper. Given the truncated HTML content and the visible text from a product page, "
    + "analyze the page structure and extract all the product information as a single text block. "
    + "The product is specified by the term provided by the user."

  const TermLabel: string := "Product term: "
  const HtmlLabel: string := "\n\nHTML Content:\n"
  const TextLabel: string := "\n\nVisible Text:\n"
  const Closing: string :=
    "\n\nPlease return the final product information as a single, cohesive text block without extra commentary."

  /** The content of the user message: it opens with the term line and the
      HTML heading, and closes with the fixed instruction. */
  function UserContent(html: string, text: string, term: string): (c: string)
    ensures TermLabel + term + HtmlLabel <= c
    ensures |Closing| <= |c| && c[|c| - |Closing|..] == Closing
  {
    TermLabel + term + HtmlLabel + TruncateText(html, MaxBodyChars)
    + TextLabel + TruncateText(text, MaxBodyChars) + Closing
  }

  /** The two messages of the chat-completion request, system first. */
  function BuildMessages(html: string, text: string, term: string): (ms: seq<Message>)
    ensures |ms| == 2
    ensures ms[0] == Message("system", SystemPrompt)
    ensures ms[1].role == "user" && ms[1].content == UserContent(html, text, term)
  {
    [Message("system", SystemPrompt), Message("user", UserContent(html, text, term))]
  }

  /** Where the truncated HTML starts in the user message. */
  function HtmlOffset(term: string): nat
  {
    |TermLabel| + |term| + |HtmlLabel|
  }

  /** Where the truncated visible text starts in the user message. */
  function TextOffset(html: string, term: string): nat
  {
    HtmlOffset(term) + |TruncateText(html, MaxBodyChars)| + |TextLabel|
  }

  /** The user message holds the term, then the truncated HTML, then the
      truncated visible text, each at its own offset and in that order. */
  lemma UserContentLayout(html: string, text: string, term: string)
    ensures var c := UserContent(html, text, term);
            var th := TruncateText(html, MaxBodyChars);
            var tt := TruncateText(text, MaxBodyChars);
            |TermLabel| + |term| < HtmlOffset(term)
            && HtmlOffset(term) + |th| < TextOffset(html, term)
            && TextOffset(html, term) + |tt| <= |c|
            && c[..|TermLabel|] == TermLabel
            && c[|TermLabel|..|TermLabel| + |term|] == term
            && c[HtmlOffset(term)..HtmlOffset(term) + |th|] == th
            && c[TextOffset(html, term)..TextOffset(html, term) + |tt|] == tt
  {
    SliceOfConcat(TermLabel, term, HtmlLabel, TruncateText(html, MaxBodyChars),
                  TextLabel, TruncateText(text, MaxBodyChars), Closing);
  }

  /** Each part of a seven-part concatenation sits at the sum of the lengths
      of the parts before it. */
  lemma SliceOfConcat(p: string, x: string, q: string, y: string, r: string, z: string, t: string)
    ensures var c := p + x + q + y + r + z + t;
            var o1 := |p| + |x| + |q|;
            var o2 := o1 + |y| + |r|;
            o2 + |z| <= |c|
            && c[..|p|] == p && c[|p|..|p| + |x|] == x
            && c[o1..o1 + |y|] == y && c[o2..o2 + |z|] == z
  {
    var a := p + x + q;
    var b := a + y + r;
    var c := b + z + t;
    assert c[..|a|] == a;
    assert c[..|b|] == b;
    assert a[..|p|] == p;
    assert a[|p|..|p| + |x|] == x;
    assert b[|a|..|a| + |y|] == y;
  }

  /** However large the page, the user message stays within a bound fixed by
      the term: both bodies contribute at most 10000 characters plus the
      18-character marker. */
  lemma UserContentBounded(html: string, text: string, term: string)
    ensures |UserContent(html, text, term)|
            <= |term| + 2 * (MaxBodyChars + 18)
               + |TermLabel| + |HtmlLabel| + |TextLabel| + |Closing|
  {
  }

  /** A body within the limit reaches the model verbatim. */
  lemma ShortBodiesVerbatim(html: string, text: string, term: string)
    requires |html| <= MaxBodyChars && |text| <= MaxBodyChars
    ensures UserContent(html, text, term)
            == TermLabel + term + HtmlLabel + html + TextLabel + text + Closing
  {
  }
}
