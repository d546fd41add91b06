/**
  The reply clean-up of the generation node (`_clean_response` in
  src/nodes/generate_node.py): four passes that drop internal reasoning
  blocks, a pass that collapses runs of blank lines, and `strip()`.
*/
module ResponseCleaning {
  import opened Wrappers
  import opened Strings

  // ---------------------------------------------------------------------------
  // Removing internal tags
  // ---------------------------------------------------------------------------

  const ThinkOpen: string := "<think>"
  const ThinkClose: string := "</think>"
  const ReasoningOpen: string := "<reasoning>"
  const ReasoningClose: string := "</reasoning>"
  const ThoughtOpen: string := "<thought>"
  const ThoughtClose: string := "</thought>"
  const InternalOpen: string := "<internal>"
  const InternalClose: string := "</internal>"

  /**
    One `re.sub(open + '.*?' + close, '', s, flags=re.DOTALL | re.IGNORECASE)`
    for lower-case tags `open` and `close`: scanning left to right, an opening
    tag (in any letter case) that has a closing tag somewhere after it is
    removed together with everything up to the first such closing tag, line
    breaks included; the scan resumes after it. Every other character is kept.
  */
  function RemoveTagged(s: string, open: string, close: string): (r: string)
    requires |open| > 0
    ensures |r| <= |s|
    decreases |s|
  {
    var low := Lower(s);
    if StartsWith(low, open) && IndexOf(low[|open|..], close).Some? then
      RemoveTagged(s[|open| + IndexOf(low[|open|..], close).value + |close|..], open, close)
    else if s == [] then []
    else [s[0]] + RemoveTagged(s[1..], open, close)
  }

  /**
    The pass matches at the start of `s`: an opening tag, in any letter case,
    starts `s` and a closing tag follows it somewhere.
  */
  predicate OpensBlock(s: string, open: string, close: string) {
    StartsWith(Lower(s), open) && IndexOf(Lower(s)[|open|..], close).Some?
  }

  /** Lowercasing commutes with dropping a prefix. */
  lemma LowerDrop(s: string, k: nat)
    requires k <= |s|
    ensures Lower(s[k..]) == Lower(s)[k..]
  {
  }

  /** Text in which the opening tag occurs in no letter case passes through unchanged. */
  lemma {:induction false} RemoveTaggedWithoutOpening(s: string, open: string, close: string)
    requires |open| > 0
    requires forall j :: !OccursAt(open, Lower(s), j)
    ensures RemoveTagged(s, open, close) == s
    decreases |s|
  {
    if s != [] {
      assert !OccursAt(open, Lower(s), 0);
      assert !StartsWith(Lower(s), open);
      LowerDrop(s, 1);
      forall j ensures !OccursAt(open, Lower(s[1..]), j) {
        if j >= 0 {
          OccursAtShift(open, Lower(s), j);
        }
      }
      RemoveTaggedWithoutOpening(s[1..], open, close);
    }
  }

  /** A window that matches, with none matching before it, is what `IndexOf` finds. */
  lemma IndexOfFirst(hay: string, needle: string, k: nat)
    requires OccursAt(needle, hay, k)
    requires forall j :: 0 <= j < k ==> !OccursAt(needle, hay, j)
    ensures IndexOf(hay, needle) == Some(k)
  {
  }

  /** Lowercasing distributes over concatenation. */
  lemma LowerAppend(a: string, b: string)
    ensures Lower(a + b) == Lower(a) + Lower(b)
  {
  }

  /** A window that lies inside the prefix `x` reads the same in `x + y`. */
  lemma WindowInPrefix(needle: string, x: string, y: string, j: int)
    requires 0 <= j && j + |needle| <= |x|
    ensures OccursAt(needle, x + y, j) <==> OccursAt(needle, x, j)
  {
    assert (x + y)[j..j + |needle|] == x[j..j + |needle|];
  }

  /**
    When no closing tag starts inside `content` (the windows that begin there
    may reach into `closeTag`), the closing tag right after it is the first
    one in the lowercased tail.
  */
  lemma CloseFoundAfterContent(content: string, closeTag: string, rest: string, close: string)
    requires Lower(closeTag) == close
    requires forall j :: 0 <= j < |content| ==> !OccursAt(close, Lower(content + closeTag), j)
    ensures IndexOf(Lower(content + closeTag + rest), close) == Some(|content|)
  {
    LowerAppend(content + closeTag, rest);
    LowerAppend(content, closeTag);
    var head := Lower(content + closeTag);
    var tail := head + Lower(rest);
    assert OccursAt(close, tail, |content|) by {
      assert tail[|content|..|content| + |close|] == close;
    }
    forall j | 0 <= j < |content| ensures !OccursAt(close, tail, j) {
      WindowInPrefix(close, head, Lower(rest), j);
    }
    IndexOfFirst(tail, close, |content|);
  }

  /**
    A block that starts the text, written with any letter case, whose first
    closing tag is its own, vanishes whole.
  */
  lemma RemoveTaggedLeadingBlock(openTag: string, content: string, closeTag: string, rest: string, open: string, close: string)
    requires |open| > 0
    requires Lower(openTag) == open && Lower(closeTag) == close
    requires forall j :: 0 <= j < |content| ==> !OccursAt(close, Lower(content + closeTag), j)
    ensures RemoveTagged(openTag + content + closeTag + rest, open, close) == RemoveTagged(rest, open, close)
  {
    var tail := content + closeTag + rest;
    var s := openTag + content + closeTag + rest;
    assert s == openTag + tail;
    LowerAppend(openTag, tail);
    var low := open + Lower(tail);
    assert low[..|open|] == open;
    assert low[|open|..] == Lower(tail);
    CloseFoundAfterContent(content, closeTag, rest, close);
    assert s[|open| + |content| + |close|..] == rest;
  }

  /** One step of a tag pass at a character where no block opens. */
  lemma RemoveTaggedKeepsFirst(a: string, s: string, open: string, close: string)
    requires |open| > 0 && |a| > 0 && !OpensBlock(a + s, open, close)
    ensures RemoveTagged(a + s, open, close) == [a[0]] + RemoveTagged(a[1..] + s, open, close)
  {
    assert (a + s)[1..] == a[1..] + s;
  }

  /** No block opens in `a` within `a + s`, so none opens in `a[1..]` within what follows `a[0]`. */
  lemma NoBlockAfterFirst(a: string, s: string, open: string, close: string)
    requires |a| > 0
    requires forall j :: 0 <= j < |a| ==> !OpensBlock((a + s)[j..], open, close)
    ensures forall j :: 0 <= j < |a[1..]| ==> !OpensBlock((a[1..] + s)[j..], open, close)
  {
    forall j | 0 <= j < |a[1..]| ensures !OpensBlock((a[1..] + s)[j..], open, close) {
      assert (a[1..] + s)[j..] == (a + s)[j + 1..];
    }
  }

  /**
    Text in front in which no block opens is kept as it is, including an
    opening tag that no closing tag follows.
  */
  lemma {:induction false} RemoveTaggedKeepsPrefix(a: string, s: string, open: string, close: string)
    requires |open| > 0
    requires forall j :: 0 <= j < |a| ==> !OpensBlock((a + s)[j..], open, close)
    ensures RemoveTagged(a + s, open, close) == a + RemoveTagged(s, open, close)
    decreases |a|
  {
    if a == [] {
      assert a + s == s;
    } else {
      assert (a + s)[0..] == a + s;
      RemoveTaggedKeepsFirst(a, s, open, close);
      NoBlockAfterFirst(a, s, open, close);
      RemoveTaggedKeepsPrefix(a[1..], s, open, close);
      ConsAppend(a, RemoveTagged(s, open, close));
    }
  }

  /** Where no opening tag starts, no block opens. */
  lemma NoOpeningNoBlock(x: string, j: nat, open: string, close: string)
    requires j <= |x| && !OccursAt(open, Lower(x), j)
    ensures !OpensBlock(x[j..], open, close)
  {
    LowerDrop(x, j);
  }

  /** Where a block opens, a closing tag follows the opening tag in the whole text. */
  lemma BlockHasClose(x: string, j: nat, open: string, close: string)
    requires j <= |x| && OpensBlock(x[j..], open, close)
    ensures OccursAt(open, Lower(x), j)
    ensures exists k :: j + |open| <= k && OccursAt(close, Lower(x), k)
  {
    LowerDrop(x, j);
    var low := Lower(x);
    assert low[j..][..|open|] == low[j..j + |open|];
    var k := IndexOf(low[j..][|open|..], close).value;
    assert low[j..][|open|..] == low[j + |open|..];
    OccursAtDrop(close, low, j + |open|, k);
  }

  /**
    An opening tag that no closing tag follows is not a match: text in which
    every opening tag lacks a later closing tag (a reply cut off inside a
    block, say) passes through unchanged.
  */
  lemma RemoveTaggedUnclosed(s: string, open: string, close: string)
    requires |open| > 0
    requires forall j, k :: OccursAt(open, Lower(s), j) && j + |open| <= k ==> !OccursAt(close, Lower(s), k)
    ensures RemoveTagged(s, open, close) == s
  {
    assert s + [] == s;
    forall j | 0 <= j < |s| ensures !OpensBlock((s + [])[j..], open, close) {
      if OpensBlock(s[j..], open, close) {
        BlockHasClose(s, j, open, close);
        assert false;
      }
    }
    RemoveTaggedKeepsPrefix(s, [], open, close);
  }

  /**
    Inside a text, a block whose first closing tag is its own, after text in
    which no opening tag starts, is removed and nothing else changes in front of it.
  */
  lemma RemoveTaggedBlockAfter(a: string, openTag: string, content: string, closeTag: string, rest: string, open: string, close: string)
    requires |open| > 0
    requires Lower(openTag) == open && Lower(closeTag) == close
    requires forall j :: 0 <= j < |a| ==> !OccursAt(open, Lower(a + openTag), j)
    requires forall j :: 0 <= j < |content| ==> !OccursAt(close, Lower(content + closeTag), j)
    ensures RemoveTagged(a + openTag + content + closeTag + rest, open, close) == a + RemoveTagged(rest, open, close)
  {
    var s := openTag + content + closeTag + rest;
    assert a + openTag + content + closeTag + rest == a + s;
    assert a + s == (a + openTag) + (content + closeTag + rest);
    LowerAppend(a + openTag, content + closeTag + rest);
    forall j | 0 <= j < |a| ensures !OpensBlock((a + s)[j..], open, close) {
      WindowInPrefix(open, Lower(a + openTag), Lower(content + closeTag + rest), j);
      NoOpeningNoBlock(a + s, j, open, close);
    }
    RemoveTaggedKeepsPrefix(a, s, open, close);
    RemoveTaggedLeadingBlock(openTag, content, closeTag, rest, open, close);
  }

  /** The four tag passes of `_clean_response`, in source order. */
  function RemoveInternalTags(s: string): (r: string)
    ensures |r| <= |s|
  {
    var a := RemoveTagged(s, ThinkOpen, ThinkClose);
    var b := RemoveTagged(a, ReasoningOpen, ReasoningClose);
    var c := RemoveTagged(b, ThoughtOpen, ThoughtClose);
    RemoveTagged(c, InternalOpen, InternalClose)
  }

  // ---------------------------------------------------------------------------
  // Collapsing blank lines
  // ---------------------------------------------------------------------------

  /** The number of line breaks in `s`. */
  function Newlines(s: string): nat
  {
    if s == [] then 0 else (if s[0] == '\n' then 1 else 0) + Newlines(s[1..])
  }

  lemma {:induction false} NewlinesAppend(a: string, b: string)
    ensures Newlines(a + b) == Newlines(a) + Newlines(b)
    decreases |a|
  {
    if a == [] {
      assert a + b == b;
    } else {
      assert (a + b)[1..] == a[1..] + b;
      NewlinesAppend(a[1..], b);
    }
  }

  /** The whitespace that `s` starts with. */
  function LeadingSpace(s: string): (w: string)
    ensures AllSpace(w) && |w| <= |s| && w == s[..|w|]
    ensures |w| < |s| ==> !IsSpace(s[|w|])
  {
    s[..|s| - |TrimStart(s)|]
  }

  /** Just past the last line break of `w`, or 0 when it has none. */
  function LastNewlineEnd(w: string): (e: nat)
    ensures e <= |w|
    ensures e > 0 ==> w[e - 1] == '\n'
    ensures Newlines(w) > 0 ==> e > 0
    ensures Newlines(w[e..]) == 0
  {
    if w == [] then 0
    else if w[|w| - 1] == '\n' then |w|
    else
      var e := LastNewlineEnd(w[..|w| - 1]);
      assert w[e..] == w[..|w| - 1][e..] + [w[|w| - 1]];
      NewlinesAppend(w[..|w| - 1][e..], [w[|w| - 1]]);
      assert w == w[..|w| - 1] + [w[|w| - 1]];
      NewlinesAppend(w[..|w| - 1], [w[|w| - 1]]);
      e
  }

  /** `s` starts with a line break whose whitespace run holds three or more line breaks. */
  predicate BlankRunStart(s: string) {
    |s| > 0 && s[0] == '\n' && Newlines(LeadingSpace(s)) >= 3
  }

  /**
    `re.sub(r'\n\s*\n\s*\n+', '\n\n', s)`: a line break that starts a
    whitespace run with at least three line breaks takes the run up to and
    including its last line break, and the whole is replaced by two line
    breaks; the scan resumes after it. Every other character is kept.
  */
  function CollapseBlankLines(s: string): (r: string)
    ensures |r| <= |s|
    decreases |s|
  {
    if BlankRunStart(s) then
      var e := LastNewlineEnd(LeadingSpace(s));
      "\n\n" + CollapseBlankLines(s[e..])
    else if s == [] then []
    else [s[0]] + CollapseBlankLines(s[1..])
  }

  /** No line break of `s` starts a whitespace run with three line breaks. */
  ghost predicate NoBlankRun(s: string) {
    forall i {:trigger BlankRunStart(s[i..])} :: 0 <= i < |s| ==> !BlankRunStart(s[i..])
  }

  /** Whitespace in front does not change where the leading run ends. */
  lemma LeadingSpaceCons(c: char, s: string)
    requires IsSpace(c)
    ensures LeadingSpace([c] + s) == [c] + LeadingSpace(s)
  {
    assert ([c] + s)[1..] == s;
  }

  /** What is left after a collapsed run starts with whitespace that holds no line break. */
  lemma AfterRunHasNoNewline(s: string)
    requires BlankRunStart(s)
    ensures var e := LastNewlineEnd(LeadingSpace(s));
      e <= |s| && Newlines(LeadingSpace(s[e..])) == 0
  {
    var w := LeadingSpace(s);
    var e := LastNewlineEnd(w);
    var t := s[e..];
    assert t == w[e..] + s[|w|..];
    assert |w| < |s| ==> !IsSpace(s[|w|]);
    LeadingSpaceOfSpaces(w[e..], s[|w|..]);
  }

  /** A whitespace prefix followed by a non-whitespace character is the whole leading run. */
  lemma {:induction false} LeadingSpaceOfSpaces(w: string, u: string)
    requires AllSpace(w)
    requires u == [] || !IsSpace(u[0])
    ensures LeadingSpace(w + u) == w
    decreases |w|
  {
    if w == [] {
      assert w + u == u;
    } else {
      assert w + u == [w[0]] + (w[1..] + u);
      LeadingSpaceOfSpaces(w[1..], u);
      LeadingSpaceCons(w[0], w[1..] + u);
    }
  }

  /** A whitespace character in front adds itself to the leading run's line breaks. */
  lemma LeadingNewlinesCons(c: char, x: string)
    requires IsSpace(c)
    ensures Newlines(LeadingSpace([c] + x)) == (if c == '\n' then 1 else 0) + Newlines(LeadingSpace(x))
  {
    LeadingSpaceCons(c, x);
    NewlinesAppend([c], LeadingSpace(x));
  }

  /** The leading run of a text that starts with whitespace is that character and the rest's run. */
  lemma LeadingNewlinesTail(s: string)
    requires |s| > 0 && IsSpace(s[0])
    ensures Newlines(LeadingSpace(s)) == (if s[0] == '\n' then 1 else 0) + Newlines(LeadingSpace(s[1..]))
  {
    assert s == [s[0]] + s[1..];
    LeadingNewlinesCons(s[0], s[1..]);
  }

  /** Two line breaks in front add two to the leading run's line breaks. */
  lemma LeadingNewlinesOfPair(x: string)
    ensures Newlines(LeadingSpace("\n\n" + x)) == 2 + Newlines(LeadingSpace(x))
  {
    assert "\n\n" + x == ['\n'] + (['\n'] + x);
    LeadingNewlinesCons('\n', ['\n'] + x);
    LeadingNewlinesCons('\n', x);
  }

  /** A text that starts with anything but whitespace has an empty leading run. */
  lemma LeadingSpaceNone(x: string)
    requires |x| > 0 && !IsSpace(x[0])
    ensures LeadingSpace(x) == []
  {
  }

  /** Collapsing never adds line breaks to the whitespace a text starts with. */
  lemma {:induction false} CollapseLeadingNewlines(s: string)
    ensures Newlines(LeadingSpace(CollapseBlankLines(s))) <= Newlines(LeadingSpace(s))
    decreases |s|
  {
    if BlankRunStart(s) {
      var t := s[LastNewlineEnd(LeadingSpace(s))..];
      AfterRunHasNoNewline(s);
      CollapseLeadingNewlines(t);
      LeadingNewlinesOfPair(CollapseBlankLines(t));
    } else if s != [] && IsSpace(s[0]) {
      var r := CollapseBlankLines(s);
      CollapseLeadingNewlines(s[1..]);
      assert r[1..] == CollapseBlankLines(s[1..]);
      LeadingNewlinesTail(r);
      LeadingNewlinesTail(s);
    } else if s != [] {
      LeadingSpaceNone(CollapseBlankLines(s));
    }
  }

  /** The collapsed text holds no blank run at a line break in front of an already collapsed rest. */
  lemma NoBlankRunCons(c: char, ct: string)
    requires NoBlankRun(ct)
    requires c == '\n' ==> 1 + Newlines(LeadingSpace(ct)) < 3
    ensures NoBlankRun([c] + ct)
  {
    var r := [c] + ct;
    forall i | 0 <= i < |r| ensures !BlankRunStart(r[i..]) {
      if i == 0 {
        if c == '\n' {
          LeadingNewlinesCons(c, ct);
        }
      } else {
        assert r[i..] == ct[i - 1..];
      }
    }
  }

  /** Two line breaks in front of a collapsed rest that starts without one make no blank run. */
  lemma NoBlankRunAfterPair(ct: string)
    requires NoBlankRun(ct) && Newlines(LeadingSpace(ct)) == 0
    ensures NoBlankRun("\n\n" + ct)
  {
    NoBlankRunCons('\n', ct);
    LeadingNewlinesCons('\n', ct);
    NoBlankRunCons('\n', ['\n'] + ct);
    assert "\n\n" + ct == ['\n'] + (['\n'] + ct);
  }

  /** After collapsing, no whitespace run holds three line breaks. */
  lemma {:induction false} CollapseLeavesNoBlankRun(s: string)
    ensures NoBlankRun(CollapseBlankLines(s))
    decreases |s|
  {
    if BlankRunStart(s) {
      var t := s[LastNewlineEnd(LeadingSpace(s))..];
      AfterRunHasNoNewline(s);
      CollapseLeavesNoBlankRun(t);
      CollapseLeadingNewlines(t);
      NoBlankRunAfterPair(CollapseBlankLines(t));
    } else if s != [] {
      CollapseLeavesNoBlankRun(s[1..]);
      if s[0] == '\n' {
        CollapseLeadingNewlines(s[1..]);
        LeadingNewlinesTail(s);
      }
      NoBlankRunCons(s[0], CollapseBlankLines(s[1..]));
    }
  }

  /** Text without such a run passes through unchanged. */
  lemma {:induction false} CollapseWithoutBlankRun(s: string)
    requires NoBlankRun(s)
    ensures CollapseBlankLines(s) == s
    decreases |s|
  {
    if s != [] {
      assert !BlankRunStart(s[0..]);
      assert s[0..] == s;
      assert NoBlankRun(s[1..]) by {
        forall i | 0 <= i < |s[1..]| ensures !BlankRunStart(s[1..][i..]) {
          assert s[1..][i..] == s[i + 1..];
        }
      }
      CollapseWithoutBlankRun(s[1..]);
    }
  }

  /** Collapsing twice is collapsing once. */
  lemma CollapseIdempotent(s: string)
    ensures CollapseBlankLines(CollapseBlankLines(s)) == CollapseBlankLines(s)
  {
    CollapseLeavesNoBlankRun(s);
    CollapseWithoutBlankRun(CollapseBlankLines(s));
  }

  /** One step of the collapse at a character that starts no blank run. */
  lemma CollapseKeepsFirst(s: string)
    requires |s| > 0 && !BlankRunStart(s)
    ensures CollapseBlankLines(s) == [s[0]] + CollapseBlankLines(s[1..])
  {
  }

  /** Text in front that holds no line break is kept as it is. */
  lemma {:induction false} CollapseKeepsNoNewlinePrefix(p: string, x: string)
    requires Newlines(p) == 0
    ensures CollapseBlankLines(p + x) == p + CollapseBlankLines(x)
    decreases |p|
  {
    if p == [] {
      assert p + x == x;
    } else {
      var s := p + x;
      assert CollapseBlankLines(s) == [p[0]] + CollapseBlankLines(p[1..] + x) by {
        assert s[0] == p[0] && p[0] != '\n';
        assert s[1..] == p[1..] + x;
        CollapseKeepsFirst(s);
      }
      CollapseKeepsNoNewlinePrefix(p[1..], x);
      ConsAppend(p, CollapseBlankLines(x));
    }
  }

  /** A whitespace run with fewer than three line breaks, up to the next text, is kept as it is. */
  lemma {:induction false} CollapseShortRun(w: string, b: string)
    requires AllSpace(w) && Newlines(w) < 3
    requires b == [] || !IsSpace(b[0])
    ensures CollapseBlankLines(w + b) == w + CollapseBlankLines(b)
    decreases |w|
  {
    if w == [] {
      assert w + b == b;
    } else {
      var s := w + b;
      assert CollapseBlankLines(s) == [w[0]] + CollapseBlankLines(w[1..] + b) by {
        LeadingSpaceOfSpaces(w, b);
        assert s[0] == w[0];
        assert s[1..] == w[1..] + b;
        CollapseKeepsFirst(s);
      }
      assert Newlines(w[1..]) <= Newlines(w);
      CollapseShortRun(w[1..], b);
      ConsAppend(w, CollapseBlankLines(b));
    }
  }

  /**
    A whitespace run `p + q` up to the next text, where `q` starts with the
    run's first line break and holds three or more: everything from that line
    break to the run's last one becomes exactly two line breaks; the
    whitespace before and after them is kept.
  */
  lemma CollapseBlankRun(p: string, q: string, b: string)
    requires AllSpace(p) && Newlines(p) == 0
    requires AllSpace(q) && |q| > 0 && q[0] == '\n' && Newlines(q) >= 3
    requires b == [] || !IsSpace(b[0])
    ensures CollapseBlankLines(p + q + b)
      == p + "\n\n" + q[LastNewlineEnd(q)..] + CollapseBlankLines(b)
  {
    var x := "\n\n";
    var y := q[LastNewlineEnd(q)..];
    var z := CollapseBlankLines(b);
    AppendAssociates(p, q, b);
    CollapseKeepsNoNewlinePrefix(p, q + b);
    CollapseBlankRunAt(q, b);
    AppendAssociates(p, x + y, z);
    AppendAssociates(p, x, y);
  }

  /** One step of the collapse at a line break that starts a blank run. */
  lemma CollapseRunStep(s: string)
    requires BlankRunStart(s)
    ensures CollapseBlankLines(s) == "\n\n" + CollapseBlankLines(s[LastNewlineEnd(LeadingSpace(s))..])
  {
  }

  /** The run of `CollapseBlankRun` with nothing in front of its first line break. */
  lemma CollapseBlankRunAt(q: string, b: string)
    requires AllSpace(q) && |q| > 0 && q[0] == '\n' && Newlines(q) >= 3
    requires b == [] || !IsSpace(b[0])
    ensures CollapseBlankLines(q + b) == "\n\n" + q[LastNewlineEnd(q)..] + CollapseBlankLines(b)
  {
    var e := LastNewlineEnd(q);
    CollapseRunOfSpaces(q, b);
    CollapseKeepsNoNewlinePrefix(q[e..], b);
    AppendAssociates("\n\n", q[e..], CollapseBlankLines(b));
  }

  /** A whitespace run up to the next text that starts a blank run is collapsed up to its last line break. */
  lemma CollapseRunOfSpaces(q: string, b: string)
    requires AllSpace(q) && |q| > 0 && q[0] == '\n' && Newlines(q) >= 3
    requires b == [] || !IsSpace(b[0])
    ensures CollapseBlankLines(q + b) == "\n\n" + CollapseBlankLines(q[LastNewlineEnd(q)..] + b)
  {
    LeadingSpaceOfSpaces(q, b);
    assert BlankRunStart(q + b);
    CollapseRunStep(q + b);
    DropAppend(q, b, LastNewlineEnd(q));
  }

  /** A text that ends with anything but whitespace keeps its leading run when more follows. */
  lemma LeadingSpaceOfText(a: string, b: string)
    requires |a| > 0 && !IsSpace(a[|a| - 1])
    ensures LeadingSpace(a + b) == LeadingSpace(a) && |LeadingSpace(a)| < |a|
  {
    var w := LeadingSpace(a);
    assert |w| < |a|;
    assert a == w + a[|w|..];
    assert a + b == w + (a[|w|..] + b);
    LeadingSpaceOfSpaces(w, a[|w|..]);
    LeadingSpaceOfSpaces(w, a[|w|..] + b);
  }

  /** Collapsing works piece by piece, cut after any character that is not whitespace. */
  lemma {:induction false} CollapseSplitsAtText(a: string, b: string)
    requires a == [] || !IsSpace(a[|a| - 1])
    ensures CollapseBlankLines(a + b) == CollapseBlankLines(a) + CollapseBlankLines(b)
    decreases |a|
  {
    if a == [] {
      assert a + b == b;
    } else if BlankRunStart(a) {
      var e := LastNewlineEnd(LeadingSpace(a));
      CollapseRunInText(a, b);
      CollapseSplitsAtText(a[e..], b);
      AppendAssociates("\n\n", CollapseBlankLines(a[e..]), CollapseBlankLines(b));
    } else {
      CollapseFirstInText(a, b);
      CollapseSplitsAtText(a[1..], b);
      AppendAssociates([a[0]], CollapseBlankLines(a[1..]), CollapseBlankLines(b));
    }
  }

  /** A blank run that starts a text ending in non-whitespace is collapsed the same with more after it. */
  lemma CollapseRunInText(a: string, b: string)
    requires |a| > 0 && !IsSpace(a[|a| - 1]) && BlankRunStart(a)
    ensures var e := LastNewlineEnd(LeadingSpace(a));
      e <= |a| && CollapseBlankLines(a + b) == "\n\n" + CollapseBlankLines(a[e..] + b)
  {
    var e := LastNewlineEnd(LeadingSpace(a));
    LeadingSpaceOfText(a, b);
    assert (a + b)[0] == a[0];
    assert BlankRunStart(a + b);
    CollapseRunStep(a + b);
    DropAppend(a, b, e);
  }

  /** A first character that starts no blank run in a text ending in non-whitespace is kept with more after it. */
  lemma CollapseFirstInText(a: string, b: string)
    requires |a| > 0 && !IsSpace(a[|a| - 1]) && !BlankRunStart(a)
    ensures CollapseBlankLines(a + b) == [a[0]] + CollapseBlankLines(a[1..] + b)
  {
    LeadingSpaceOfText(a, b);
    assert (a + b)[0] == a[0];
    assert !BlankRunStart(a + b);
    CollapseKeepsFirst(a + b);
    DropAppend(a, b, 1);
  }

  // ---------------------------------------------------------------------------
  // The cleaned reply
  // ---------------------------------------------------------------------------

  /**
    `_clean_response`: the four tag passes, the blank-line collapse, then
    `strip()`. The result neither starts nor ends with whitespace, and no
    whitespace run in it holds three line breaks.
  */
  function CleanResponse(response: string): (r: string)
    ensures |r| <= |response|
    ensures r == [] || (!IsSpace(r[0]) && !IsSpace(r[|r| - 1]))
    ensures NoBlankRun(r)
  {
    var c := CollapseBlankLines(RemoveInternalTags(response));
    CollapseLeavesNoBlankRun(RemoveInternalTags(response));
    StripKeepsNoBlankRun(c);
    Strip(c)
  }

  /** `strip()` cuts the text, so it adds no blank run. */
  lemma StripKeepsNoBlankRun(c: string)
    requires NoBlankRun(c)
    ensures NoBlankRun(Strip(c))
  {
    var i, j :| 0 <= i <= j <= |c| && Strip(c) == c[i..j];
    NoBlankRunSlice(c, i, j);
  }

  /** The whitespace a prefix of `x` starts with is a prefix of the whitespace `x` starts with. */
  lemma LeadingSpaceOfPrefix(x: string, m: nat)
    requires m <= |x|
    ensures |LeadingSpace(x[..m])| <= |LeadingSpace(x)|
    ensures LeadingSpace(x[..m]) == LeadingSpace(x)[..|LeadingSpace(x[..m])|]
  {
    var w := LeadingSpace(x[..m]);
    assert w == x[..|w|];
  }

  /** A prefix holds no more line breaks than the whole. */
  lemma NewlinesPrefix(v: string, n: nat)
    requires n <= |v|
    ensures Newlines(v[..n]) <= Newlines(v)
  {
    assert v == v[..n] + v[n..];
    NewlinesAppend(v[..n], v[n..]);
  }

  /** Cutting a text without blank runs leaves none: a cut run holds fewer line breaks. */
  lemma NoBlankRunSlice(s: string, i: nat, j: nat)
    requires NoBlankRun(s) && i <= j <= |s|
    ensures NoBlankRun(s[i..j])
  {
    forall k | 0 <= k < j - i ensures !BlankRunStart(s[i..j][k..]) {
      var x := s[i + k..];
      var m := j - i - k;
      assert s[i..j][k..] == x[..m];
      assert !BlankRunStart(x);
      LeadingSpaceOfPrefix(x, m);
      NewlinesPrefix(LeadingSpace(x), |LeadingSpace(x[..m])|);
    }
  }

  /** No opening tag of the four kinds occurs in any letter case. */
  ghost predicate NoInternalTags(s: string) {
    forall j :: !OccursAt(ThinkOpen, Lower(s), j) && !OccursAt(ReasoningOpen, Lower(s), j)
      && !OccursAt(ThoughtOpen, Lower(s), j) && !OccursAt(InternalOpen, Lower(s), j)
  }

  /** On a reply with no internal tags, cleaning is the blank-line collapse and `strip()`. */
  lemma CleanResponseWithoutTags(response: string)
    requires NoInternalTags(response)
    ensures CleanResponse(response) == Strip(CollapseBlankLines(response))
  {
    RemoveTaggedWithoutOpening(response, ThinkOpen, ThinkClose);
    RemoveTaggedWithoutOpening(response, ReasoningOpen, ReasoningClose);
    RemoveTaggedWithoutOpening(response, ThoughtOpen, ThoughtClose);
    RemoveTaggedWithoutOpening(response, InternalOpen, InternalClose);
  }

  /** A reply with no internal tags and no run of three line breaks is only stripped. */
  lemma CleanResponseOfCleanReply(response: string)
    requires NoInternalTags(response)
    requires NoBlankRun(response)
    ensures CleanResponse(response) == Strip(response)
  {
    CleanResponseWithoutTags(response);
    CollapseWithoutBlankRun(response);
  }

  /**
    A reasoning preamble `<think>…</think>` (any letter case, its first
    closing tag its own) in front of the answer leaves the same cleaned reply
    as the answer alone.
  */
  lemma ThinkPreambleVanishes(openTag: string, content: string, closeTag: string, answer: string)
    requires Lower(openTag) == ThinkOpen && Lower(closeTag) == ThinkClose
    requires forall j :: 0 <= j < |content| ==> !OccursAt(ThinkClose, Lower(content + closeTag), j)
    ensures CleanResponse(openTag + content + closeTag + answer) == CleanResponse(answer)
  {
    RemoveTaggedLeadingBlock(openTag, content, closeTag, answer, ThinkOpen, ThinkClose);
  }
}
