/** What the analysis, enrichment and chat routes share: a project's documents as the prompts
    show them, the outcome of a call to a language model, and the `{...}` span the routes
    look for in the model's reply. */
module RouteCommon {
  import opened JsText

  /** A row of `SELECT filename, content FROM documents`. */
  datatype Document = Document(filename: string, content: string)

  /** One document as the prompts show it: a `=== <filename> ===` line, then its text. */
  function Section(d: Document): string {
    "=== " + d.filename + " ===\n" + d.content
  }

  function Sections(docs: seq<Document>): (ss: seq<string>)
    ensures |ss| == |docs| && forall k :: 0 <= k < |docs| ==> ss[k] == Section(docs[k])
  {
    seq(|docs|, k requires 0 <= k < |docs| => Section(docs[k]))
  }

  /** `rows.map(doc => `=== ${doc.filename} ===\n${doc.content}`).join('\n\n')` */
  function CombinedContent(docs: seq<Document>): string {
    Join(Sections(docs), "\n\n")
  }

  /** One document gives its own section. */
  lemma CombinedContentOne(d: Document)
    ensures CombinedContent([d]) == "=== " + d.filename + " ===\n" + d.content
  {
  }

  /** The documents appear in the order of the rows, one blank line between two of them. */
  lemma CombinedContentConcat(a: seq<Document>, b: seq<Document>)
    requires |a| > 0 && |b| > 0
    ensures CombinedContent(a + b) == CombinedContent(a) + "\n\n" + CombinedContent(b)
  {
    assert Sections(a + b) == Sections(a) + Sections(b);
    JoinConcat(Sections(a), Sections(b), "\n\n");
  }

  /** A call to a language model: the text of its first content block, or the message of the
      error it raised (an API failure, or a reply without a text block). */
  datatype ModelReply = Replied(text: string) | CallFailed(message: string)

  /** The match of the regular expression `/\{[\s\S]*\}/`: from the first `{` to the last `}`,
      when that `}` comes after it. */
  function JsonSpan(s: string): Option<string> {
    var i := IndexOf(s, '{');
    var j := LastIndexOf(s, '}');
    if i.Some? && j.Some? && i.value < j.value then Some(s[i.value..j.value + 1]) else None
  }

  /** There is a span exactly when some `{` comes before some `}`. */
  lemma JsonSpanExists(s: string)
    ensures JsonSpan(s).Some? <==> exists i, j :: 0 <= i < j < |s| && s[i] == '{' && s[j] == '}'
  {
    var i := IndexOf(s, '{');
    var j := LastIndexOf(s, '}');
    if i.Some? && j.Some? && i.value < j.value {
      assert s[i.value] == '{' && s[j.value] == '}';
    }
    if exists a, b :: 0 <= a < b < |s| && s[a] == '{' && s[b] == '}' {
      var a, b :| 0 <= a < b < |s| && s[a] == '{' && s[b] == '}';
      FirstBefore(s, '{', a);
      LastAfter(s, '}', b);
    }
  }

  lemma FirstBefore(s: string, c: char, a: nat)
    requires a < |s| && s[a] == c
    ensures IndexOf(s, c).Some? && IndexOf(s, c).value <= a
  {
  }

  lemma LastAfter(s: string, c: char, b: nat)
    requires b < |s| && s[b] == c
    ensures LastIndexOf(s, c).Some? && b <= LastIndexOf(s, c).value
  {
  }

  /** The span runs from the first `{` to the last `}`: text before the first `{` and after
      the last `}` (prose around the object) is dropped. */
  lemma JsonSpanAt(s: string, i: nat, j: nat)
    requires i < j < |s| && s[i] == '{' && s[j] == '}'
    requires '{' !in s[..i] && '}' !in s[j + 1..]
    ensures JsonSpan(s) == Some(s[i..j + 1])
  {
    FirstBefore(s, '{', i);
    LastAfter(s, '}', j);
  }
}
