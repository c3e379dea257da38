/** Splitting an AI reply into its reasoning, written between `<think>` and
    `</think>`, and the content shown to the reader. A reply that is still
    streaming may have opened the reasoning block without closing it. */
module AiContent {
  import opened Text

  const ThinkTagStart: string := "<think>"
  const ThinkTagEnd: string := "</think>"

  /** Where the first complete reasoning block opens and closes, if any. */
  datatype Block = NoBlock | Block(open: nat, close: nat)

  /** The first match of `/<think>(.*?)<\/think>/s`: the first opening tag,
      and the first closing tag after it. */
  function ThinkBlock(raw: string): (b: Block)
    ensures b.Block? ==> OccursAt(raw, ThinkTagStart, b.open) && OccursAt(raw, ThinkTagEnd, b.close) &&
                         b.open + |ThinkTagStart| <= b.close
  {
    var open := IndexOf(raw, ThinkTagStart, 0);
    if open < 0 then NoBlock
    else
      var close := IndexOf(raw, ThinkTagEnd, open + |ThinkTagStart|);
      if close < 0 then NoBlock else Block(open, close)
  }

  /** The regular expression's leftmost, shortest match: a block is found
      exactly when some opening tag is followed by a closing tag; it opens at
      the earliest such opening tag and closes at the first closing tag after
      it. */
  lemma ThinkBlockMeaning(raw: string)
    ensures ThinkBlock(raw).NoBlock? <==>
              forall p, q :: OccursAt(raw, ThinkTagStart, p) && OccursAt(raw, ThinkTagEnd, q) ==> q < p + |ThinkTagStart|
    ensures ThinkBlock(raw).Block? ==>
              var b := ThinkBlock(raw);
              (forall p :: 0 <= p < b.open ==> !OccursAt(raw, ThinkTagStart, p)) &&
              (forall q :: b.open + |ThinkTagStart| <= q < b.close ==> !OccursAt(raw, ThinkTagEnd, q))
  {
  }

  /** What the dialog shows: the reasoning and the content. */
  datatype Parsed = Parsed(reasoning: string, content: string)

  /** parseAIContent: a complete block gives its trimmed inside as reasoning
      and the trimmed rest, with that block cut out, as content; otherwise a
      reply opening with `<think>` is all reasoning so far; otherwise it is
      all content. */
  function ParseAIContent(raw: string): (r: Parsed)
    ensures Trimmed(r.reasoning) && Trimmed(r.content)
  {
    match ThinkBlock(raw)
    case Block(open, close) =>
      Parsed(Trim(raw[open + |ThinkTagStart|..close]), Trim(raw[..open] + raw[close + |ThinkTagEnd|..]))
    case NoBlock =>
      if StartsWith(raw, ThinkTagStart) then Parsed(Trim(raw[|ThinkTagStart|..]), "")
      else Parsed("", Trim(raw))
  }

  /** No character of the closing tag but its last is `>`, so a closing tag
      cannot start inside another one's first seven characters. */
  lemma ClosingTagShape()
    ensures forall i :: 0 <= i < |ThinkTagEnd| - 1 ==> ThinkTagEnd[i] != '>'
    ensures ThinkTagEnd[|ThinkTagEnd| - 1] == '>'
  {
  }

  /** In a complete block, the first closing tag after the opening one is
      the block's own, as long as the reasoning holds no closing tag. */
  lemma FirstClosingTag(reasoning: string, content: string)
    requires forall k :: !OccursAt(reasoning, ThinkTagEnd, k)
    ensures IndexOf(ThinkTagStart + reasoning + ThinkTagEnd + content, ThinkTagEnd, |ThinkTagStart|)
              == |ThinkTagStart| + |reasoning|
  {
    var raw := ThinkTagStart + reasoning + ThinkTagEnd + content;
    var close := |ThinkTagStart| + |reasoning|;
    assert raw[close..close + |ThinkTagEnd|] == ThinkTagEnd;
    ClosingTagShape();
    forall k | |ThinkTagStart| <= k < close
      ensures !OccursAt(raw, ThinkTagEnd, k)
    {
      if k + |ThinkTagEnd| <= close {
        assert raw[k..k + |ThinkTagEnd|] == reasoning[k - |ThinkTagStart|..k - |ThinkTagStart| + |ThinkTagEnd|];
        assert !OccursAt(reasoning, ThinkTagEnd, k - |ThinkTagStart|);
      } else {
        assert raw[k + |ThinkTagEnd| - 1] == ThinkTagEnd[k + |ThinkTagEnd| - 1 - close];
      }
    }
    assert OccursAt(raw, ThinkTagEnd, close);
  }

  /** A reply made of a complete block and the content after it parses back
      into the trimmed reasoning and the trimmed content. */
  lemma CompleteReply(reasoning: string, content: string)
    requires forall k :: !OccursAt(reasoning, ThinkTagEnd, k)
    ensures ParseAIContent(ThinkTagStart + reasoning + ThinkTagEnd + content) == Parsed(Trim(reasoning), Trim(content))
  {
    var raw := ThinkTagStart + reasoning + ThinkTagEnd + content;
    var close := |ThinkTagStart| + |reasoning|;
    assert raw[..|ThinkTagStart|] == ThinkTagStart;
    assert OccursAt(raw, ThinkTagStart, 0);
    assert IndexOf(raw, ThinkTagStart, 0) == 0;
    FirstClosingTag(reasoning, content);
    assert ThinkBlock(raw) == Block(0, close);
    assert raw[|ThinkTagStart|..close] == reasoning;
    assert raw[..0] + raw[close + |ThinkTagEnd|..] == content;
  }

  /** A streaming reply that has opened its reasoning but not closed it is
      all reasoning. */
  lemma OpenReply(partial: string)
    requires forall k :: !OccursAt(partial, ThinkTagEnd, k)
    ensures ParseAIContent(ThinkTagStart + partial) == Parsed(Trim(partial), "")
  {
    var raw := ThinkTagStart + partial;
    assert raw[..|ThinkTagStart|] == ThinkTagStart;
    forall k | |ThinkTagStart| <= k
      ensures !OccursAt(raw, ThinkTagEnd, k)
    {
      if k + |ThinkTagEnd| <= |raw| {
        assert raw[k..k + |ThinkTagEnd|] == partial[k - |ThinkTagStart|..k - |ThinkTagStart| + |ThinkTagEnd|];
        assert !OccursAt(partial, ThinkTagEnd, k - |ThinkTagStart|);
      }
    }
    assert ThinkBlock(raw) == NoBlock;
    assert raw[|ThinkTagStart|..] == partial;
  }

  /** A reply without any opening tag is all content. */
  lemma PlainReply(raw: string)
    requires forall k :: !OccursAt(raw, ThinkTagStart, k)
    ensures ParseAIContent(raw) == Parsed("", Trim(raw))
  {
    assert !OccursAt(raw, ThinkTagStart, 0);
  }

  /** An opening tag that is neither closed nor at the start of the reply
      finds no block and does not trigger the streaming case, so the whole
      reply is content, and the tag itself is still in that content. */
  lemma UnclosedTagInContent(raw: string, p: nat)
    requires OccursAt(raw, ThinkTagStart, p) && !OccursAt(raw, ThinkTagStart, 0)
    requires forall q :: !OccursAt(raw, ThinkTagEnd, q)
    ensures ParseAIContent(raw) == Parsed("", Trim(raw))
    ensures exists k :: OccursAt(ParseAIContent(raw).content, ThinkTagStart, k)
  {
    assert |raw| >= |ThinkTagStart| ==> raw[..|ThinkTagStart|] == raw[0..|ThinkTagStart|];
    assert ThinkBlock(raw) == NoBlock;
    TagSurvivesTrim(raw, p);
  }

  /** Trimming cuts only whitespace, and the opening tag starts with `<` and
      ends with `>`, so a tag in the reply is still whole after trimming. */
  lemma TagSurvivesTrim(raw: string, p: nat)
    requires OccursAt(raw, ThinkTagStart, p)
    ensures exists k :: OccursAt(Trim(raw), ThinkTagStart, k)
  {
    var lo, hi :| 0 <= lo <= hi <= |raw| && Trim(raw) == raw[lo..hi] &&
                  (forall i :: 0 <= i < lo ==> IsWhitespace(raw[i])) &&
                  (forall i :: hi <= i < |raw| ==> IsWhitespace(raw[i]));
    TagInsideMargins(raw, p, lo, hi);
  }

  /** A tag lies between whitespace margins, so it is a tag of the slice
      between them. */
  lemma TagInsideMargins(raw: string, p: nat, lo: nat, hi: nat)
    requires OccursAt(raw, ThinkTagStart, p) && lo <= hi <= |raw|
    requires forall i :: 0 <= i < lo ==> IsWhitespace(raw[i])
    requires forall i :: hi <= i < |raw| ==> IsWhitespace(raw[i])
    ensures lo <= p && OccursAt(raw[lo..hi], ThinkTagStart, p - lo)
  {
    var tag := raw[p..p + |ThinkTagStart|];
    var last := p + |ThinkTagStart| - 1;
    assert raw[p] == tag[0] == '<';
    assert raw[last] == tag[|ThinkTagStart| - 1] == '>';
    assert !IsWhitespace(raw[p]) && !IsWhitespace(raw[last]);
    assert lo <= p && last < hi;
    var slice := raw[lo..hi];
    var inner := slice[p - lo..p - lo + |ThinkTagStart|];
    assert |inner| == |tag|;
    assert forall j :: 0 <= j < |tag| ==> inner[j] == raw[p + j] == tag[j];
    assert inner == tag;
  }
}
