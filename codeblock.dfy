/**
 * Extraction of the text enclosed in `<codeblock>` tags from a model reply
 * (command/softcmd/codeblock.go).
 */
module CodeBlocks {
  import opened Thinker
  import opened Strings

  const OpenTag: string := "<codeblock>"
  const CloseTag: string := "</codeblock>"

  /** The Feedback a malformed block yields; it names the tool. */
  function CodeBlockFeedback(tool: string): Error {
    FeedbackError(Feedback(
      "The TOOL:" + tool + " has failed, improve the response based on feedback:",
      ["Strictly adhere " + tool + " code formatting and enclose the " + tool + " code in <codeblock> tags"]))
  }

  /** Both tags occur and the first open tag comes before the first close tag. */
  ghost predicate WellFormed(s: string) {
    Contains(s, OpenTag) && Contains(s, CloseTag) && Index(s, OpenTag) < Index(s, CloseTag)
  }

  /** Neither tag overlaps itself: its `<` appears only at its start. */
  lemma TagsAreUnambiguous()
    ensures forall k :: 0 < k < |OpenTag| ==> OpenTag[k] != OpenTag[0]
    ensures forall k :: 0 < k < |CloseTag| ==> CloseTag[k] != CloseTag[0]
    ensures OpenTag[0] == CloseTag[0] == '<' && OpenTag[1] != CloseTag[1]
  {
  }

  /** An open tag that starts before a close tag ends before it starts. */
  lemma {:induction false} OpenTagEndsFirst(s: string, b: int, e: int)
    requires OccursAt(s, OpenTag, b) && OccursAt(s, CloseTag, e) && b < e
    ensures b + |OpenTag| <= e
  {
    TagsAreUnambiguous();
    assert s[e] == s[e..e + |CloseTag|][0] == '<';
    forall k | b < k < b + |OpenTag|
      ensures s[k] != '<'
    {
      assert s[k] == s[b..b + |OpenTag|][k - b];
    }
  }

  /**
   * `CodeBlock(tool, str)`: the text between the end of the first open tag and
   * the start of the first close tag, or "" and a Feedback naming the tool.
   */
  function CodeBlock(tool: string, s: string): (r: (string, Option<Error>))
    ensures r.1.None? <==> WellFormed(s)
    ensures r.1.Some? ==> r.0 == "" && r.1 == Some(CodeBlockFeedback(tool))
    ensures !Contains(r.0, CloseTag)
  {
    var b := Index(s, OpenTag);
    var e := Index(s, CloseTag);
    if b == -1 || e == -1 || b >= e then
      ("", Some(CodeBlockFeedback(tool)))
    else
      OpenTagEndsFirst(s, b, e);
      NoCloseTagInside(s, b + |OpenTag|, e);
      (s[b + |OpenTag|..e], None)
  }

  /**
   * On success the block is what lies between the end of an open tag and the
   * start of a close tag, neither of which occurs any earlier.
   */
  lemma BetweenFirstTags(tool: string, s: string)
    requires WellFormed(s)
    ensures var r := CodeBlock(tool, s);
      var b := Index(s, OpenTag);
      var e := b + |OpenTag| + |r.0|;
      && r.1.None?
      && OccursAt(s, OpenTag, b) && !Contains(s[..b], OpenTag)
      && OccursAt(s, CloseTag, e) && !Contains(s[..e], CloseTag)
      && s[b + |OpenTag|..e] == r.0
  {
    var b := Index(s, OpenTag);
    var e := Index(s, CloseTag);
    OpenTagEndsFirst(s, b, e);
    FirstOccurrenceIsAbsentBefore(s, OpenTag, b);
    FirstOccurrenceIsAbsentBefore(s, CloseTag, e);
  }

  lemma {:induction false} FirstOccurrenceIsAbsentBefore(s: string, t: string, i: int)
    requires |t| > 0 && Index(s, t) == i && i != -1
    ensures !Contains(s[..i], t)
  {
    assert OccursAt(s, t, i);
    forall j
      ensures !OccursAt(s[..i], t, j)
    {
      if 0 <= j && j + |t| <= i {
        assert s[..i][j..j + |t|] == s[j..j + |t|];
        assert !OccursAt(s, t, j);
      }
    }
  }

  lemma {:induction false} NoCloseTagInside(s: string, lo: int, e: int)
    requires 0 <= lo <= e && Index(s, CloseTag) == e
    ensures !Contains(s[lo..e], CloseTag)
  {
    assert OccursAt(s, CloseTag, e);
    forall j
      ensures !OccursAt(s[lo..e], CloseTag, j)
    {
      if 0 <= j && lo + j + |CloseTag| <= e {
        var m := s[lo..e];
        assert m[j..j + |CloseTag|] == s[lo + j..lo + j + |CloseTag|] by {
          forall q | 0 <= q < |m|
            ensures m[q] == s[lo + q]
          {
          }
        }
        assert !OccursAt(s, CloseTag, lo + j);
      }
    }
  }

  /** No close tag can straddle `x + OpenTag + c` when neither `x` nor `c` holds one. */
  lemma {:induction false} NoCloseTagAround(x: string, c: string)
    requires !Contains(x, CloseTag) && !Contains(c, CloseTag)
    ensures !Contains(x + OpenTag + c, CloseTag)
  {
    TagsAreUnambiguous();
    var p := x + OpenTag + c;
    var n := |x| + |OpenTag|;
    forall i | 0 <= i && i + |CloseTag| <= |p|
      ensures !OccursAt(p, CloseTag, i)
    {
      var w := p[i..i + |CloseTag|];
      if i + |CloseTag| <= |x| {
        assert w == x[i..i + |CloseTag|];
        assert !OccursAt(x, CloseTag, i);
      } else if i < |x| {
        assert w[|x| - i] == p[|x|] == OpenTag[0];
      } else if i == |x| {
        assert w[1] == p[|x| + 1] == OpenTag[1];
      } else if i < n {
        assert w[0] == p[i] == OpenTag[i - |x|];
      } else {
        assert w == c[i - n..i - n + |CloseTag|];
        assert !OccursAt(c, CloseTag, i - n);
      }
    }
  }

  /**
   * Round trip: a block wrapped in tags, after a prefix holding neither tag
   * and with no close tag of its own, is extracted exactly.
   */
  lemma {:induction false} CodeBlockRoundTrip(tool: string, x: string, c: string, y: string)
    requires !Contains(x, OpenTag) && !Contains(x, CloseTag) && !Contains(c, CloseTag)
    ensures CodeBlock(tool, x + OpenTag + c + CloseTag + y) == (c, None)
  {
    var s := x + OpenTag + c + CloseTag + y;
    var b, e := |x|, |x| + |OpenTag| + |c|;
    TagsFound(x, c, y);
    Extracts(tool, s, b, e);
  }

  /** Where the first tags are found is all `CodeBlock` looks at. */
  lemma Extracts(tool: string, s: string, b: int, e: int)
    requires 0 <= b && b + |OpenTag| <= e && Index(s, OpenTag) == b && Index(s, CloseTag) == e
    ensures CodeBlock(tool, s) == (s[b + |OpenTag|..e], None)
  {
  }

  /** In a wrapped block, the first tags are the ones that wrap it. */
  lemma TagsFound(x: string, c: string, y: string)
    requires !Contains(x, OpenTag) && !Contains(x, CloseTag) && !Contains(c, CloseTag)
    ensures Index(x + OpenTag + c + CloseTag + y, OpenTag) == |x|
    ensures Index(x + OpenTag + c + CloseTag + y, CloseTag) == |x| + |OpenTag| + |c|
    ensures (x + OpenTag + c + CloseTag + y)[|x| + |OpenTag|..|x| + |OpenTag| + |c|] == c
  {
    var s := x + OpenTag + c + CloseTag + y;
    assert s == (x + OpenTag) + c + (CloseTag + y);
    TagsAreUnambiguous();
    assert s == x + OpenTag + (c + CloseTag + y);
    IndexAfter(x, OpenTag, c + CloseTag + y);
    NoCloseTagAround(x, c);
    assert s == (x + OpenTag + c) + CloseTag + y;
    IndexAfter(x + OpenTag + c, CloseTag, y);
  }
}
