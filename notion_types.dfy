/** Rich text as the Notion API returns it, shared by post properties and
    content blocks. */
module NotionTypes {
  import opened Wrappers

  datatype Annotations = Annotations(bold: bool, italic: bool, strikethrough: bool,
                                     underline: bool, code: bool)

  /** One rich-text item: its plain text, the URL of `text.link` when there is
      one, and its annotations when present. */
  datatype RichText = RichText(plainText: string, link: Option<string>,
                               annotations: Option<Annotations>)

  /** `items.map(item => item.plain_text).join('')`. */
  function JoinPlainText(items: seq<RichText>): string
  {
    if items == [] then "" else items[0].plainText + JoinPlainText(items[1..])
  }

  /** The texts are joined in order: joining a concatenation joins each part. */
  lemma {:induction false} JoinPlainTextAppend(a: seq<RichText>, b: seq<RichText>)
    ensures JoinPlainText(a + b) == JoinPlainText(a) + JoinPlainText(b)
    decreases |a|
  {
    if a != [] {
      assert (a + b)[1..] == a[1..] + b;
      JoinPlainTextAppend(a[1..], b);
    } else {
      assert a + b == b;
    }
  }
}
