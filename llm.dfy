/** The language-model call, seen from the application: a reply is an ordered
    list of content blocks, or the call throws. The call itself is an oracle
    (a function parameter of the operations that make it); this module holds
    what the application does with its outcome. */
module Llm {
  import opened Wrappers

  /** One element of `response.content`: a text block, or a block of any other
      type, which the application ignores. */
  datatype ContentBlock = TextBlock(text: string) | OtherBlock(kind: string)

  /** A thrown value, as far as `err instanceof Error ? err.message : ...`
      can tell them apart. */
  datatype Thrown = ErrorObject(message: string) | NonError

  /** The outcome of one `client.messages.create` call. */
  datatype Reply = Replied(content: seq<ContentBlock>) | Threw(thrown: Thrown)

  const GenericError := "An error occurred"
  const MissingKeyError := "Please set your Anthropic API key in the .env file"
  const PlaceholderKey := "your_api_key_here"

  /** `!apiKey || apiKey === 'your_api_key_here'`: an absent or empty key, or
      the placeholder from the example environment file. */
  predicate KeyMissing(apiKey: Option<string>) {
    apiKey.None? || apiKey.value == "" || apiKey.value == PlaceholderKey
  }

  /** The message recorded for a thrown value. */
  function ErrorText(t: Thrown): string {
    match t
    case ErrorObject(message) => message
    case NonError => GenericError
  }

  /** `.filter(block => block.type === 'text').map(block => block.text)` */
  function TextParts(blocks: seq<ContentBlock>): (parts: seq<string>)
    ensures |parts| <= |blocks|
  {
    if |blocks| == 0 then []
    else (if blocks[0].TextBlock? then [blocks[0].text] else []) + TextParts(blocks[1..])
  }

  /** `.join('')` */
  function Concat(parts: seq<string>): string {
    if |parts| == 0 then "" else parts[0] + Concat(parts[1..])
  }

  /** The assistant text of a reply: its text blocks, in order, joined with
      nothing in between. */
  function TextOf(blocks: seq<ContentBlock>): string {
    Concat(TextParts(blocks))
  }

  lemma {:induction false} ConcatAppend(a: seq<string>, b: seq<string>)
    ensures Concat(a + b) == Concat(a) + Concat(b)
  {
    if |a| == 0 {
      assert a + b == b;
    } else {
      assert (a + b)[1..] == a[1..] + b;
      ConcatAppend(a[1..], b);
    }
  }

  lemma {:induction false} TextPartsAppend(a: seq<ContentBlock>, b: seq<ContentBlock>)
    ensures TextParts(a + b) == TextParts(a) + TextParts(b)
  {
    if |a| == 0 {
      assert a + b == b;
    } else {
      var head := if a[0].TextBlock? then [a[0].text] else [];
      assert (a + b)[0] == a[0];
      assert (a + b)[1..] == a[1..] + b;
      assert TextParts(a + b) == head + TextParts(a[1..] + b);
      TextPartsAppend(a[1..], b);
      assert TextParts(a) == head + TextParts(a[1..]);
    }
  }

  /** The text of a reply split in two is the text of the first part followed
      by the text of the second. */
  lemma TextOfAppend(a: seq<ContentBlock>, b: seq<ContentBlock>)
    ensures TextOf(a + b) == TextOf(a) + TextOf(b)
  {
    TextPartsAppend(a, b);
    ConcatAppend(TextParts(a), TextParts(b));
  }

  /** A block that is not text contributes nothing, wherever it stands. */
  lemma TextOfIgnoresOtherBlocks(a: seq<ContentBlock>, kind: string, b: seq<ContentBlock>)
    ensures TextOf(a + [OtherBlock(kind)] + b) == TextOf(a + b)
  {
    TextOfAppend(a + [OtherBlock(kind)], b);
    TextOfAppend(a, [OtherBlock(kind)]);
    TextOfAppend(a, b);
    assert TextParts([OtherBlock(kind)]) == [];
  }

  /** A text block contributes exactly its text, in its place. */
  lemma TextOfTextBlock(a: seq<ContentBlock>, t: string, b: seq<ContentBlock>)
    ensures TextOf(a + [TextBlock(t)] + b) == TextOf(a) + t + TextOf(b)
  {
    TextOfAppend(a + [TextBlock(t)], b);
    TextOfAppend(a, [TextBlock(t)]);
    assert TextParts([TextBlock(t)]) == [t];
    assert Concat([t]) == t + Concat([]);
  }
}
