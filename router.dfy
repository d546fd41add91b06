/**
  The intent router (intent_router.py): text normalisation, the
  intent-to-bucket table built from the routing configuration, the
  confidence threshold, the max/top-3 summary of the classifier's
  probabilities and the three-way routing decision.

  The TF-IDF vectoriser and the logistic-regression model are one
  capability, `classify`, from cleaned text to the model's label, its
  class list and its probability row.
*/
module Router {
  import opened Wrappers
  import opened Strings

  const BucketA: string := "BUCKET_A"
  const BucketB: string := "BUCKET_B"
  const BucketC: string := "BUCKET_C"
  const LowConfidenceEscalate: string := "LOW_CONFIDENCE_ESCALATE"
  const UnknownIntentEscalate: string := "UNKNOWN_INTENT_ESCALATE"
  /** The router's own cost tier for escalations (capitalised, unlike the other modules). */
  const HighCost: string := "High"
  const DefaultConfidenceThreshold: real := 0.5

  // ---------------------------------------------------------------------
  // Placeholder removal: re.sub(r'\{\{.*?\}\}', '', text)
  // ---------------------------------------------------------------------

  predicate NoNewline(s: string) {
    forall m :: 0 <= m < |s| ==> s[m] != '\n'
  }

  /** A `}}` starts at offset `k` of `s` and no line break comes before it. */
  predicate ClosesAt(s: string, k: int) {
    0 <= k && k + 1 < |s| && s[k] == '}' && s[k + 1] == '}' && NoNewline(s[..k])
  }

  /** `.*?\}\}` matches at the start of `s` (`.` does not match a line break). */
  ghost predicate ClosesOnLine(s: string) {
    exists k :: ClosesAt(s, k)
  }

  lemma ClosesAtShift(s: string, k: nat)
    requires |s| >= 1 && s[0] != '\n'
    ensures ClosesAt(s[1..], k) <==> ClosesAt(s, k + 1)
  {
    if k + 2 < |s| {
      var p, q := s[..k + 1], s[1..][..k];
      assert p == [s[0]] + q;
      assert NoNewline(q) <==> NoNewline(p) by {
        if NoNewline(q) {
          forall m | 0 <= m < k + 1 ensures p[m] != '\n' {
            if m > 0 { assert p[m] == q[m - 1]; }
          }
        }
        if NoNewline(p) {
          forall m | 0 <= m < k ensures q[m] != '\n' {
            assert q[m] == p[m + 1];
          }
        }
      }
    }
  }

  lemma ShiftCloses(s: string)
    requires |s| >= 1 && s[0] != '\n' && ClosesOnLine(s[1..])
    ensures ClosesOnLine(s)
  {
    var k :| ClosesAt(s[1..], k);
    ClosesAtShift(s, k);
  }

  /** Where the lazy `.*?` stops: the first `}}`, provided no line break comes before it. */
  function FindClose(s: string): (r: Option<nat>)
    ensures r.Some? ==> ClosesAt(s, r.value)
    ensures r.Some? ==> forall k :: 0 <= k < r.value ==> !ClosesAt(s, k)
    ensures r.Some? <==> ClosesOnLine(s)
    decreases |s|
  {
    if |s| < 2 || s[0] == '\n' then
      assert !ClosesOnLine(s) by {
        forall k | 0 < k < |s| ensures !ClosesAt(s, k) {
          assert s[..k][0] == s[0];
        }
      }
      None
    else if s[0] == '}' && s[1] == '}' then
      assert ClosesAt(s, 0);
      Some(0)
    else
      var r := FindClose(s[1..]);
      assert r.Some? ==> ClosesAt(s, r.value + 1) by {
        if r.Some? { ClosesAtShift(s, r.value); }
      }
      assert r.Some? ==> forall k :: 0 <= k < r.value + 1 ==> !ClosesAt(s, k) by {
        if r.Some? {
          forall k | 0 <= k < r.value + 1 ensures !ClosesAt(s, k) {
            if k > 0 { ClosesAtShift(s, k - 1); }
          }
        }
      }
      assert ClosesOnLine(s) ==> ClosesOnLine(s[1..]) by {
        if ClosesOnLine(s) {
          var k :| ClosesAt(s, k);
          assert k > 0;
          ClosesAtShift(s, k - 1);
        }
      }
      if r.Some? then Some(r.value + 1) else None
  }

  /** `s` starts with `{{` and a placeholder close follows on the same line. */
  ghost predicate OpensPlaceholder(s: string) {
    |s| >= 2 && s[0] == '{' && s[1] == '{' && ClosesOnLine(s[2..])
  }

  /** `re.sub(r'\{\{.*?\}\}', '', s)`: left to right, drop every `{{ … }}` that closes on its own line. */
  function RemovePlaceholders(s: string): (r: string)
    ensures |r| <= |s|
    decreases |s|
  {
    if |s| >= 2 && s[0] == '{' && s[1] == '{' && FindClose(s[2..]).Some? then
      RemovePlaceholders(s[FindClose(s[2..]).value + 4..])
    else if s == [] then []
    else [s[0]] + RemovePlaceholders(s[1..])
  }

  /** Nowhere in `t` does a `{{` start a placeholder that closes on its line. */
  ghost predicate NoPlaceholder(t: string) {
    forall i :: 0 <= i && i + 1 < |t| && t[i] == '{' && t[i + 1] == '{' ==> !ClosesOnLine(t[i + 2..])
  }

  lemma RemovedHead(v: string)
    requires |v| >= 1 && !OpensPlaceholder(v)
    ensures RemovePlaceholders(v) == [v[0]] + RemovePlaceholders(v[1..])
  {
  }

  /** A placeholder close in the output was already a close in the input. */
  lemma {:induction false} ClosesSurvive(u: string)
    requires ClosesOnLine(RemovePlaceholders(u))
    ensures ClosesOnLine(u)
    decreases |u|
  {
    if OpensPlaceholder(u) {
      assert u[1..][1..] == u[2..];
      ShiftCloses(u[1..]);
      ShiftCloses(u);
    } else {
      assert u != [];
      RemovedHead(u);
      var t := RemovePlaceholders(u);
      var t' := RemovePlaceholders(u[1..]);
      var k :| ClosesAt(t, k);
      if k == 0 {
        assert |t'| >= 1 && t'[0] == '}';
        if OpensPlaceholder(u[1..]) {
          assert u[1..][2..] == u[3..];
          assert u[2..][1..] == u[3..];
          ShiftCloses(u[2..]);
          assert u[1..][1..] == u[2..];
          ShiftCloses(u[1..]);
          ShiftCloses(u);
        } else {
          RemovedHead(u[1..]);
          assert ClosesAt(u, 0);
        }
      } else {
        assert t[..k][0] == t[0] == u[0];
        assert t[1..] == t';
        ClosesAtShift(t, k - 1);
        ClosesSurvive(u[1..]);
        ShiftCloses(u);
      }
    }
  }

  /** After the substitution no placeholder that closes on its own line is left. */
  lemma {:induction false} NoPlaceholderLeft(s: string)
    ensures NoPlaceholder(RemovePlaceholders(s))
    decreases |s|
  {
    if OpensPlaceholder(s) {
      var k := FindClose(s[2..]).value;
      NoPlaceholderLeft(s[k + 4..]);
    } else if s != [] {
      RemovedHead(s);
      var t := RemovePlaceholders(s);
      var t' := RemovePlaceholders(s[1..]);
      NoPlaceholderLeft(s[1..]);
      forall i | 0 <= i && i + 1 < |t| && t[i] == '{' && t[i + 1] == '{'
        ensures !ClosesOnLine(t[i + 2..])
      {
        if i > 0 {
          assert t[i + 2..] == t'[i + 1..];
          assert t'[i - 1] == '{' && t'[i] == '{';
        } else {
          assert s[1..][1..] == s[2..];
          if OpensPlaceholder(s[1..]) {
            assert s[1..][2..] == s[3..];
            assert s[2..][1..] == s[3..];
            ShiftCloses(s[2..]);
            assert false;
          } else {
            RemovedHead(s[1..]);
            assert t[2..] == RemovePlaceholders(s[2..]);
            if ClosesOnLine(t[2..]) {
              ClosesSurvive(s[2..]);
              assert false;
            }
          }
        }
      }
    }
  }

  /** A text in which no `{{` occurs is left as it is. */
  lemma {:induction false} RemovePlaceholdersWithoutOpening(s: string)
    requires forall i :: 0 <= i && i + 1 < |s| ==> !(s[i] == '{' && s[i + 1] == '{')
    ensures RemovePlaceholders(s) == s
    decreases |s|
  {
    if s != [] {
      RemovedHead(s);
      var u := s[1..];
      forall i | 0 <= i && i + 1 < |u| ensures !(u[i] == '{' && u[i + 1] == '{') {
        assert u[i] == s[i + 1] && u[i + 1] == s[i + 2];
      }
      RemovePlaceholdersWithoutOpening(s[1..]);
    }
  }

  /**
    A leading `{{ c }}` whose `}}` is the first one on its line is dropped
    whole, and the substitution goes on with what follows it.
  */
  lemma RemovePlaceholdersLeading(c: string, rest: string)
    requires NoNewline(c)
    requires forall k :: 0 <= k < |c| ==> !ClosesAt(c + "}}" + rest, k)
    ensures RemovePlaceholders("{{" + c + "}}" + rest) == RemovePlaceholders(rest)
  {
    var s := "{{" + c + "}}" + rest;
    var t := c + "}}" + rest;
    assert s[2..] == t;
    assert t[..|c|] == c;
    assert ClosesAt(t, |c|);
    assert FindClose(t).value == |c|;
    assert s[|c| + 4..] == rest;
  }

  /** One character that does not open a placeholder is kept in front. */
  lemma RemovePlaceholdersKeepsFirst(a: string, s: string)
    requires |a| > 0 && !OpensPlaceholder(a + s)
    ensures RemovePlaceholders(a + s) == [a[0]] + RemovePlaceholders(a[1..] + s)
  {
    RemovedHead(a + s);
    assert (a + s)[1..] == a[1..] + s;
  }

  /** No placeholder opens in `a` within `a + s`, so none opens in `a[1..]` within what follows `a[0]`. */
  lemma NoOpeningPlaceholderAfterFirst(a: string, s: string)
    requires |a| > 0
    requires forall j :: 0 <= j < |a| ==> !OpensPlaceholder((a + s)[j..])
    ensures forall j :: 0 <= j < |a[1..]| ==> !OpensPlaceholder((a[1..] + s)[j..])
  {
    forall j | 0 <= j < |a[1..]| ensures !OpensPlaceholder((a[1..] + s)[j..]) {
      assert (a[1..] + s)[j..] == (a + s)[j + 1..];
    }
  }

  /** Text in front in which no placeholder opens is kept as it is. */
  lemma {:induction false} RemovePlaceholdersKeepsPrefix(a: string, s: string)
    requires forall j :: 0 <= j < |a| ==> !OpensPlaceholder((a + s)[j..])
    ensures RemovePlaceholders(a + s) == a + RemovePlaceholders(s)
    decreases |a|
  {
    if a == [] {
      assert a + s == s;
    } else {
      assert (a + s)[0..] == a + s;
      RemovePlaceholdersKeepsFirst(a, s);
      NoOpeningPlaceholderAfterFirst(a, s);
      RemovePlaceholdersKeepsPrefix(a[1..], s);
      ConsAppend(a, RemovePlaceholders(s));
    }
  }

  /**
    Inside a text, a placeholder `{{ c }}` that closes at its own first `}}`,
    after text in which no placeholder opens, is removed and nothing in front
    of it changes.
  */
  lemma RemovePlaceholdersBlockAfter(a: string, c: string, rest: string)
    requires NoNewline(c)
    requires forall k :: 0 <= k < |c| ==> !ClosesAt(c + "}}" + rest, k)
    requires forall j :: 0 <= j < |a| ==> !OpensPlaceholder((a + ("{{" + c + "}}" + rest))[j..])
    ensures RemovePlaceholders(a + ("{{" + c + "}}" + rest)) == a + RemovePlaceholders(rest)
  {
    RemovePlaceholdersKeepsPrefix(a, "{{" + c + "}}" + rest);
    RemovePlaceholdersLeading(c, rest);
  }

  // ---------------------------------------------------------------------
  // Whitespace collapsing: re.sub(r'\s+', ' ', text)
  // ---------------------------------------------------------------------

  /** No two whitespace characters in a row. */
  predicate SingleSpaced(r: string) {
    forall i :: 0 <= i < |r| - 1 ==> !(IsSpace(r[i]) && IsSpace(r[i + 1]))
  }

  predicate NoUpper(s: string) {
    forall i :: 0 <= i < |s| ==> !IsUpper(s[i])
  }

  /** Every whitespace character of `r` is a plain space. */
  predicate BlanksOnly(r: string) {
    forall i :: 0 <= i < |r| && IsSpace(r[i]) ==> r[i] == ' '
  }

  /** `re.sub(r'\s+', ' ', s)`: every maximal run of whitespace becomes one space. */
  function CollapseSpaces(s: string): (r: string)
    ensures |s| > 0 <==> |r| > 0
    ensures |s| > 0 ==> (IsSpace(r[0]) <==> IsSpace(s[0]))
    ensures |s| > 0 ==> (IsSpace(r[|r| - 1]) <==> IsSpace(s[|s| - 1]))
    ensures SingleSpaced(r)
    ensures BlanksOnly(r)
    decreases |s|
  {
    if s == [] then []
    else if IsSpace(s[0]) then
      var t := TrimStart(s);
      var rest := CollapseSpaces(t);
      var r := [' '] + rest;
      assert r[1..] == rest;
      assert t == [] ==> s[..|s|] == s;
      r
    else
      var rest := CollapseSpaces(s[1..]);
      var r := [s[0]] + rest;
      assert r[1..] == rest;
      r
  }

  lemma {:induction false} CollapseKeepsNoUpper(s: string)
    requires NoUpper(s)
    ensures NoUpper(CollapseSpaces(s))
    decreases |s|
  {
    if s != [] {
      if IsSpace(s[0]) {
        var t := TrimStart(s);
        assert NoUpper(t) by {
          forall i | 0 <= i < |t| ensures !IsUpper(t[i]) {
            assert t[i] == s[|s| - |t| + i];
          }
        }
        CollapseKeepsNoUpper(t);
      } else {
        CollapseKeepsNoUpper(s[1..]);
      }
    }
  }

  /** Collapsing whitespace keeps every other character, in order. */
  lemma {:induction false} CollapseKeepsText(s: string)
    ensures NonSpace(CollapseSpaces(s)) == NonSpace(s)
    decreases |s|
  {
    if s != [] {
      if IsSpace(s[0]) {
        var t := TrimStart(s);
        CollapseKeepsText(t);
        NonSpaceTrimStart(s);
        NonSpaceAppend([' '], CollapseSpaces(t));
      } else {
        CollapseKeepsText(s[1..]);
        NonSpaceAppend([s[0]], CollapseSpaces(s[1..]));
      }
    }
  }

  // ---------------------------------------------------------------------
  // Words: what the whitespace collapse must not change
  // ---------------------------------------------------------------------

  /** The length of the run of non-whitespace characters `s` starts with. */
  function WordEnd(s: string): (k: nat)
    ensures k <= |s|
    ensures forall i :: 0 <= i < k ==> !IsSpace(s[i])
    ensures k < |s| ==> IsSpace(s[k])
    decreases |s|
  {
    if s == [] || IsSpace(s[0]) then 0 else 1 + WordEnd(s[1..])
  }

  /** The first whitespace position is the only one with those two properties. */
  lemma WordEndUnique(s: string, k: nat)
    requires k <= |s|
    requires forall i :: 0 <= i < k ==> !IsSpace(s[i])
    requires k < |s| ==> IsSpace(s[k])
    ensures WordEnd(s) == k
  {
  }

  /** `s.split()`: the maximal runs of non-whitespace characters, in order. */
  function Words(s: string): seq<string>
    decreases |s|
  {
    if s == [] then []
    else if IsSpace(s[0]) then Words(s[1..])
    else
      var k := WordEnd(s);
      [s[..k]] + Words(s[k..])
  }

  lemma {:induction false} WordsOfSpaces(w: string)
    requires AllSpace(w)
    ensures Words(w) == []
    decreases |w|
  {
    if w != [] {
      WordsOfSpaces(w[1..]);
    }
  }

  lemma {:induction false} WordsTrimStart(s: string)
    ensures Words(TrimStart(s)) == Words(s)
    decreases |s|
  {
    if |s| > 0 && IsSpace(s[0]) {
      WordsTrimStart(s[1..]);
    }
  }

  /** Whitespace at the end adds no word. */
  lemma {:induction false} WordsAppendSpaces(x: string, w: string)
    requires AllSpace(w)
    ensures Words(x + w) == Words(x)
    decreases |x|
  {
    if x == [] {
      assert x + w == w;
      WordsOfSpaces(w);
    } else if IsSpace(x[0]) {
      assert (x + w)[1..] == x[1..] + w;
      WordsAppendSpaces(x[1..], w);
    } else {
      var k := WordEnd(x);
      WordEndUnique(x + w, k);
      assert (x + w)[..k] == x[..k];
      assert (x + w)[k..] == x[k..] + w;
      WordsAppendSpaces(x[k..], w);
    }
  }

  /** One step of the collapse at a character that is not whitespace. */
  lemma CollapseKeepsWordChar(w: string, x: string)
    requires |w| > 0 && !IsSpace(w[0])
    ensures CollapseSpaces(w + x) == [w[0]] + CollapseSpaces(w[1..] + x)
  {
    var s := w + x;
    assert s[0] == w[0];
    assert s[1..] == w[1..] + x;
  }

  /** A word in front passes through the collapse unchanged. */
  lemma {:induction false} CollapseKeepsWordPrefix(w: string, x: string)
    requires forall i :: 0 <= i < |w| ==> !IsSpace(w[i])
    ensures CollapseSpaces(w + x) == w + CollapseSpaces(x)
    decreases |w|
  {
    if w == [] {
      assert w + x == x;
    } else {
      CollapseKeepsWordChar(w, x);
      CollapseKeepsWordPrefix(w[1..], x);
      ConsAppend(w, CollapseSpaces(x));
    }
  }

  /** A word followed by nothing or by whitespace is the first word. */
  lemma WordsAfterWord(w: string, c: string)
    requires |w| > 0 && forall i :: 0 <= i < |w| ==> !IsSpace(w[i])
    requires c == [] || IsSpace(c[0])
    ensures Words(w + c) == [w] + Words(c)
  {
    WordEndUnique(w + c, |w|);
    assert (w + c)[..|w|] == w;
    assert (w + c)[|w|..] == c;
  }

  /** Collapsing whitespace keeps the words and their separation: `s.split()` is unchanged. */
  lemma {:induction false} CollapseKeepsWords(s: string)
    ensures Words(CollapseSpaces(s)) == Words(s)
    decreases |s|
  {
    if s != [] {
      if IsSpace(s[0]) {
        assert |TrimStart(s)| < |s|;
        CollapseKeepsWords(TrimStart(s));
        CollapseKeepsWordsAtSpace(s);
      } else {
        CollapseKeepsWords(s[WordEnd(s)..]);
        CollapseKeepsWordsAtWord(s);
      }
    }
  }

  /** The step of `CollapseKeepsWords` at whitespace: the run becomes one space, which no word holds. */
  lemma CollapseKeepsWordsAtSpace(s: string)
    requires |s| > 0 && IsSpace(s[0])
    requires Words(CollapseSpaces(TrimStart(s))) == Words(TrimStart(s))
    ensures Words(CollapseSpaces(s)) == Words(s)
  {
    WordsTrimStart(s);
    assert ([' '] + CollapseSpaces(TrimStart(s)))[1..] == CollapseSpaces(TrimStart(s));
  }

  /** The step of `CollapseKeepsWords` at a word: the word is kept and so is the whitespace after it. */
  lemma CollapseKeepsWordsAtWord(s: string)
    requires |s| > 0 && !IsSpace(s[0])
    requires Words(CollapseSpaces(s[WordEnd(s)..])) == Words(s[WordEnd(s)..])
    ensures Words(CollapseSpaces(s)) == Words(s)
  {
    WordsOfCollapseAtWord(s);
  }

  /** The first word of the collapsed text is the word the text starts with. */
  lemma WordsOfCollapseAtWord(s: string)
    requires |s| > 0 && !IsSpace(s[0])
    ensures Words(CollapseSpaces(s)) == [s[..WordEnd(s)]] + Words(CollapseSpaces(s[WordEnd(s)..]))
  {
    var k := WordEnd(s);
    CollapseAtWord(s);
    WordsAfterWord(s[..k], CollapseSpaces(s[k..]));
  }

  /** The collapse keeps the word a text starts with. */
  lemma CollapseAtWord(s: string)
    requires |s| > 0 && !IsSpace(s[0])
    ensures CollapseSpaces(s) == s[..WordEnd(s)] + CollapseSpaces(s[WordEnd(s)..])
  {
    var k := WordEnd(s);
    assert s == s[..k] + s[k..];
    CollapseKeepsWordPrefix(s[..k], s[k..]);
  }




  /**
    `clean_text`: drop one-line `{{…}}` placeholders, lowercase, strip, and
    collapse whitespace runs. The result has no upper-case letter, does not
    start or end with whitespace and has no two whitespace characters in a row.
  */
  function CleanText(text: string): (r: string)
    ensures NoUpper(r)
    ensures r == [] || (!IsSpace(r[0]) && !IsSpace(r[|r| - 1]))
    ensures SingleSpaced(r)
    ensures BlanksOnly(r)
  {
    var stripped := TrimEnd(TrimStart(Lower(RemovePlaceholders(text))));
    TrimKeepsNoUpper(Lower(RemovePlaceholders(text)));
    CollapseKeepsNoUpper(stripped);
    CollapseSpaces(stripped)
  }

  lemma TrimKeepsNoUpper(s: string)
    requires NoUpper(s)
    ensures NoUpper(TrimEnd(TrimStart(s)))
  {
    var t := TrimStart(s);
    var u := TrimEnd(t);
    StripSlices(s, t, u);
    NoUpperSlice(s, |s| - |t|, |s| - |t| + |u|);
  }

  /** A slice of text without upper-case letters has none. */
  lemma NoUpperSlice(s: string, i: nat, j: nat)
    requires NoUpper(s) && i <= j <= |s|
    ensures NoUpper(s[i..j])
  {
    forall k | 0 <= k < j - i ensures !IsUpper(s[i..j][k]) {
      assert s[i..j][k] == s[i + k];
    }
  }

  /** Cleaning changes only placeholders, letter case and whitespace. */
  lemma CleanTextKeepsText(text: string)
    ensures NonSpace(CleanText(text)) == NonSpace(Lower(RemovePlaceholders(text)))
  {
    var lowered := Lower(RemovePlaceholders(text));
    CollapseKeepsText(TrimEnd(TrimStart(lowered)));
    NonSpaceTrimEnd(TrimStart(lowered));
    NonSpaceTrimStart(lowered);
  }

  /** Cleaning keeps the words of the lowercased, placeholder-free text, each still separated from the next. */
  lemma CleanTextKeepsWords(text: string)
    ensures Words(CleanText(text)) == Words(Lower(RemovePlaceholders(text)))
  {
    var lowered := Lower(RemovePlaceholders(text));
    var u := TrimEnd(TrimStart(lowered));
    assert CleanText(text) == CollapseSpaces(u);
    CollapseKeepsWords(u);
    WordsStrip(lowered);
  }

  /** Dropping trailing whitespace keeps the words. */
  lemma WordsTrimEnd(t: string)
    ensures Words(TrimEnd(t)) == Words(t)
  {
    var u := TrimEnd(t);
    assert t == u + t[|u|..];
    WordsAppendSpaces(u, t[|u|..]);
  }

  /** Stripping whitespace from both ends keeps the words. */
  lemma WordsStrip(s: string)
    ensures Words(TrimEnd(TrimStart(s))) == Words(s)
  {
    WordsTrimEnd(TrimStart(s));
    WordsTrimStart(s);
  }

  // ---------------------------------------------------------------------
  // Probability summary: the tail of predict_intent
  // ---------------------------------------------------------------------

  /** One entry of the probability table: an intent label and its probability. */
  type Scored = (string, real)

  /** Python's `max` over a non-empty list of probabilities. */
  function MaxOf(ps: seq<real>): (m: real)
    requires |ps| > 0
    ensures m in ps
    ensures forall p :: p in ps ==> p <= m
  {
    if |ps| == 1 then ps[0]
    else
      var t := MaxOf(ps[1..]);
      assert forall p :: p in ps ==> p == ps[0] || p in ps[1..];
      if ps[0] >= t then ps[0] else t
  }

  predicate NonIncreasing(s: seq<Scored>) {
    forall i, j :: 0 <= i < j < |s| ==> s[i].1 >= s[j].1
  }

  /** The entries of `s` whose probability is `v`, in their order in `s`. */
  function WithProbability(s: seq<Scored>, v: real): seq<Scored>
  {
    if s == [] then [] else (if s[0].1 == v then [s[0]] else []) + WithProbability(s[1..], v)
  }

  /** Insert `x` in front of the first entry that is not more probable: later equals stay behind it. */
  function InsertDescending(x: Scored, s: seq<Scored>): (r: seq<Scored>)
    requires NonIncreasing(s)
    ensures |r| == |s| + 1
    ensures r[0] == if s == [] || s[0].1 <= x.1 then x else s[0]
    ensures NonIncreasing(r)
    ensures multiset(r) == multiset(s) + multiset{x}
  {
    if s == [] || s[0].1 <= x.1 then
      var r := [x] + s;
      assert r[1..] == s;
      r
    else
      var rest := InsertDescending(x, s[1..]);
      var r := [s[0]] + rest;
      assert r[1..] == rest;
      assert s == [s[0]] + s[1..];
      r
  }

  lemma {:induction false} InsertDescendingStable(x: Scored, s: seq<Scored>, v: real)
    requires NonIncreasing(s)
    ensures WithProbability(InsertDescending(x, s), v)
         == if x.1 == v then [x] + WithProbability(s, v) else WithProbability(s, v)
    decreases |s|
  {
    var r := InsertDescending(x, s);
    if s == [] || s[0].1 <= x.1 {
      assert r[1..] == s;
    } else {
      InsertDescendingStable(x, s[1..], v);
      assert r[1..] == InsertDescending(x, s[1..]);
      if x.1 == v {
        assert s[0].1 != v;
      }
    }
  }

  /**
    `sorted(items, key=probability, reverse=True)`: a stable sort, so entries
    of equal probability keep their order.
  */
  function SortDescending(s: seq<Scored>): (r: seq<Scored>)
    ensures |r| == |s|
    ensures NonIncreasing(r)
    ensures multiset(r) == multiset(s)
    decreases |s|
  {
    if s == [] then []
    else
      assert s == [s[0]] + s[1..];
      InsertDescending(s[0], SortDescending(s[1..]))
  }

  /** Entries of equal probability come out of the sort in their original order. */
  lemma {:induction false} SortDescendingStable(s: seq<Scored>, v: real)
    ensures WithProbability(SortDescending(s), v) == WithProbability(s, v)
    decreases |s|
  {
    if s != [] {
      SortDescendingStable(s[1..], v);
      InsertDescendingStable(s[0], SortDescending(s[1..]), v);
    }
  }

  lemma {:induction false} WithProbabilityPrefix(s: seq<Scored>, n: nat, v: real)
    requires n <= |s|
    ensures WithProbability(s[..n], v) <= WithProbability(s, v)
    decreases n
  {
    if n > 0 {
      assert s[..n][1..] == s[1..][..n - 1];
      WithProbabilityPrefix(s[1..], n - 1, v);
    }
  }

  function Min(a: int, b: int): int {
    if a <= b then a else b
  }

  /** What the classifier returns for one cleaned text. */
  datatype RawPrediction = RawPrediction(predicted: string, classes: seq<string>, probabilities: seq<real>)

  /** The model's class list is non-empty, duplicate-free and as long as its probability row. */
  predicate WellFormed(raw: RawPrediction) {
    && |raw.probabilities| > 0
    && |raw.classes| == |raw.probabilities|
    && forall i, j :: 0 <= i < j < |raw.classes| ==> raw.classes[i] != raw.classes[j]
  }

  /** `dict(zip(classes, probabilities))` as its list of items. */
  function Zip(classes: seq<string>, probabilities: seq<real>): (z: seq<Scored>)
    requires |classes| == |probabilities|
    ensures |z| == |classes|
    ensures forall i :: 0 <= i < |z| ==> z[i] == (classes[i], probabilities[i])
  {
    seq(|classes|, i requires 0 <= i < |classes| => (classes[i], probabilities[i]))
  }

  datatype Prediction = Prediction(
    predictedIntent: string,
    confidence: real,
    probabilities: seq<Scored>,
    top3: seq<Scored>)

  /** The first `n` entries of the sorted table: every table entry is among them or no more probable than the last. */
  lemma TopEntries(z: seq<Scored>, n: nat)
    requires 0 < n <= |z|
    ensures forall e :: e in SortDescending(z)[..n] ==> e in z
    ensures forall e :: e in z ==> e in SortDescending(z)[..n] || e.1 <= SortDescending(z)[n - 1].1
  {
    var sorted := SortDescending(z);
    forall e | e in sorted[..n] ensures e in z {
      assert e in multiset(sorted);
    }
    forall e | e in z ensures e in sorted[..n] || e.1 <= sorted[n - 1].1 {
      assert e in multiset(sorted);
      var j :| 0 <= j < |sorted| && sorted[j] == e;
      if j < n { assert sorted[..n][j] == e; }
    }
  }

  /** The head of the sorted table carries the largest probability. */
  lemma TopIsMax(z: seq<Scored>, ps: seq<real>)
    requires |z| == |ps| > 0
    requires forall i :: 0 <= i < |z| ==> z[i].1 == ps[i]
    ensures SortDescending(z)[0].1 == MaxOf(ps)
  {
    var sorted := SortDescending(z);
    var m := MaxOf(ps);
    assert sorted[0] in multiset(z);
    var i0 :| 0 <= i0 < |z| && z[i0] == sorted[0];
    assert ps[i0] in ps;
    var im :| 0 <= im < |ps| && ps[im] == m;
    assert z[im] in multiset(sorted);
    var j :| 0 <= j < |sorted| && sorted[j] == z[im];
    assert j == 0 || sorted[0].1 >= sorted[j].1;
  }

  /** `sorted(...)[:3]`: the three most probable entries of the table (fewer if it is shorter). */
  function TopThree(z: seq<Scored>): seq<Scored>
  {
    SortDescending(z)[..Min(3, |z|)]
  }

  /** Entries of equal probability keep their table order among the top three. */
  lemma TopThreeStable(z: seq<Scored>)
    ensures forall v :: WithProbability(TopThree(z), v) <= WithProbability(z, v)
  {
    forall v ensures WithProbability(TopThree(z), v) <= WithProbability(z, v) {
      WithProbabilityPrefix(SortDescending(z), Min(3, |z|), v);
      SortDescendingStable(z, v);
    }
  }

  /**
    The tail of `predict_intent`: confidence is the largest probability and
    `top_3_predictions` the (at most) three most probable classes, most
    probable first, ties in class order.
  */
  function PredictIntent(raw: RawPrediction): (p: Prediction)
    requires WellFormed(raw)
    ensures p.predictedIntent == raw.predicted
    ensures p.confidence in raw.probabilities
    ensures forall q :: q in raw.probabilities ==> q <= p.confidence
    ensures |p.probabilities| == |raw.classes|
    ensures forall i :: 0 <= i < |raw.classes| ==> p.probabilities[i] == (raw.classes[i], raw.probabilities[i])
    ensures |p.top3| == Min(3, |raw.probabilities|)
    ensures NonIncreasing(p.top3)
    ensures p.top3[0].1 == p.confidence
    ensures forall e :: e in p.top3 ==> e in p.probabilities
    ensures forall e :: e in p.probabilities ==> e in p.top3 || e.1 <= p.top3[|p.top3| - 1].1
    ensures forall v :: WithProbability(p.top3, v) <= WithProbability(p.probabilities, v)
  {
    var table := Zip(raw.classes, raw.probabilities);
    TopEntries(table, Min(3, |table|));
    TopIsMax(table, raw.probabilities);
    TopThreeStable(table);
    Prediction(raw.predicted, MaxOf(raw.probabilities), table, TopThree(table))
  }

  // ---------------------------------------------------------------------
  // Routing configuration and the intent table
  // ---------------------------------------------------------------------

  /** One bucket of `intent_routing`; absent keys are `None` (or no intents). */
  datatype BucketInfo = BucketInfo(intents: seq<string>, description: Option<string>, cost: Option<string>)

  /** The loaded routing_config.json: the threshold if present, and the buckets in file order. */
  datatype RoutingConfig = RoutingConfig(confidenceThreshold: Option<real>, intentRouting: seq<(string, BucketInfo)>)

  /** One value of `intent_to_bucket`. */
  datatype RouteInfo = RouteInfo(bucket: string, description: string, cost: string)

  function Entry(name: string, info: BucketInfo): RouteInfo {
    RouteInfo(name, info.description.GetOr(""), info.cost.GetOr("Unknown"))
  }

  /** `m` after `m[intent] = e` for each intent of `intents`, in order. */
  function AddIntents(m: map<string, RouteInfo>, e: RouteInfo, intents: seq<string>): map<string, RouteInfo>
    decreases |intents|
  {
    if intents == [] then m
    else AddIntents(m, e, intents[..|intents| - 1])[intents[|intents| - 1] := e]
  }

  /** `m` after the nested loop of `_build_intent_mapping` over `buckets`. */
  function AddBuckets(m: map<string, RouteInfo>, buckets: seq<(string, BucketInfo)>): map<string, RouteInfo>
    decreases |buckets|
  {
    if buckets == [] then m
    else
      var last := buckets[|buckets| - 1];
      AddIntents(AddBuckets(m, buckets[..|buckets| - 1]), Entry(last.0, last.1), last.1.intents)
  }

  /** The table built from an empty one. */
  function IntentMapping(buckets: seq<(string, BucketInfo)>): map<string, RouteInfo> {
    AddBuckets(map[], buckets)
  }

  /** Index of the last bucket whose intent list names `intent`. */
  function LastListing(buckets: seq<(string, BucketInfo)>, intent: string): (r: Option<nat>)
    ensures r.Some? ==> r.value < |buckets| && intent in buckets[r.value].1.intents
    ensures r.Some? ==> forall k :: r.value < k < |buckets| ==> intent !in buckets[k].1.intents
    ensures r.None? ==> forall k :: 0 <= k < |buckets| ==> intent !in buckets[k].1.intents
    decreases |buckets|
  {
    if buckets == [] then None
    else if intent in buckets[|buckets| - 1].1.intents then Some(|buckets| - 1)
    else LastListing(buckets[..|buckets| - 1], intent)
  }

  lemma {:induction false} AddIntentsLookup(m: map<string, RouteInfo>, e: RouteInfo, intents: seq<string>, i: string)
    ensures i in AddIntents(m, e, intents) <==> i in m || i in intents
    ensures i in intents ==> AddIntents(m, e, intents)[i] == e
    ensures i !in intents && i in m ==> AddIntents(m, e, intents)[i] == m[i]
    decreases |intents|
  {
    if intents != [] {
      var init := intents[..|intents| - 1];
      AddIntentsLookup(m, e, init, i);
      assert intents == init + [intents[|intents| - 1]];
    }
  }

  /**
    After `_build_intent_mapping` an intent is in the table exactly when some
    bucket lists it, and it maps to the last bucket that lists it.
  */
  lemma {:induction false} IntentMappingLookup(m: map<string, RouteInfo>, buckets: seq<(string, BucketInfo)>, i: string)
    ensures i in AddBuckets(m, buckets) <==> i in m || LastListing(buckets, i).Some?
    ensures LastListing(buckets, i).Some? ==>
      var k := LastListing(buckets, i).value;
      AddBuckets(m, buckets)[i] == Entry(buckets[k].0, buckets[k].1)
    ensures LastListing(buckets, i).None? && i in m ==> AddBuckets(m, buckets)[i] == m[i]
    decreases |buckets|
  {
    if buckets != [] {
      var init := buckets[..|buckets| - 1];
      var last := buckets[|buckets| - 1];
      IntentMappingLookup(m, init, i);
      AddIntentsLookup(AddBuckets(m, init), Entry(last.0, last.1), last.1.intents, i);
    }
  }

  /** `confidence_threshold`: the constructor argument when given (even 0.0), else the configured one, else 0.5. */
  function ThresholdFor(thresholdOverride: Option<real>, configured: Option<real>): (t: real)
    ensures thresholdOverride.Some? ==> t == thresholdOverride.value
    ensures thresholdOverride.None? && configured.Some? ==> t == configured.value
    ensures thresholdOverride.None? && configured.None? ==> t == DefaultConfidenceThreshold
  {
    match thresholdOverride
    case Some(t) => t
    case None => configured.GetOr(DefaultConfidenceThreshold)
  }

  // ---------------------------------------------------------------------
  // Decisions
  // ---------------------------------------------------------------------

  /** The `reason` of a decision; the low-confidence text embeds `{confidence:.2%}`. */
  datatype Reason =
    | LowConfidence(confidence: real)
    | UnknownIntent(intent: string)
    | DirectLookup
    | RagSmallLlm
    | EscalateBigLlm

  datatype RoutingDecision = RoutingDecision(bucket: string, action: string, reason: Reason, costTier: string)

  /** The dictionary `route_message` returns. */
  datatype RouteResult = RouteResult(
    userMessage: string,
    cleanedText: string,
    predictedIntent: string,
    confidence: real,
    bucket: string,
    action: string,
    reason: Reason,
    costTier: string,
    top3: seq<Scored>)

  /**
    `_build_intent_mapping`: starting from an empty table, for each bucket in
    file order and each of its intents, `intent_to_bucket[intent] = entry`.
  */
  method BuildIntentMapping(buckets: seq<(string, BucketInfo)>) returns (intentToBucket: map<string, RouteInfo>)
    ensures intentToBucket == IntentMapping(buckets)
  {
    intentToBucket := map[];
    var b := 0;
    while b < |buckets|
      invariant 0 <= b <= |buckets|
      invariant intentToBucket == AddBuckets(map[], buckets[..b])
    {
      var name := buckets[b].0;
      var info := buckets[b].1;
      var entry := Entry(name, info);
      ghost var before := intentToBucket;
      var j := 0;
      while j < |info.intents|
        invariant 0 <= j <= |info.intents|
        invariant intentToBucket == AddIntents(before, entry, info.intents[..j])
      {
        intentToBucket := intentToBucket[info.intents[j] := entry];
        assert info.intents[..j + 1][..j] == info.intents[..j];
        j := j + 1;
      }
      assert info.intents[..j] == info.intents;
      assert buckets[..b + 1][..b] == buckets[..b];
      b := b + 1;
    }
    assert buckets[..b] == buckets;
  }

  /**
    The router after construction. Its threshold and intent table are set
    once, while it is built, and only read afterwards.
  */
  class IntentRouter {
    /** The vectoriser and the model, as one capability over cleaned text. */
    const classify: string -> RawPrediction
    const routingConfig: RoutingConfig
    const confidenceThreshold: real
    const intentToBucket: map<string, RouteInfo>

    /** Construction after the three model files were found and loaded. */
    constructor (config: RoutingConfig, thresholdOverride: Option<real>, classify: string -> RawPrediction)
      ensures this.classify == classify && routingConfig == config
      ensures confidenceThreshold == ThresholdFor(thresholdOverride, config.confidenceThreshold)
      ensures intentToBucket == IntentMapping(config.intentRouting)
    {
      this.classify := classify;
      routingConfig := config;
      confidenceThreshold := ThresholdFor(thresholdOverride, config.confidenceThreshold);
      var table := BuildIntentMapping(config.intentRouting);
      intentToBucket := table;
    }

    /**
      `get_routing_decision`: low confidence escalates first, whatever the
      intent; then an intent missing from the table escalates; otherwise the
      configured bucket, with the bucket name as action and the configured cost.
    */
    function GetRoutingDecision(intent: string, confidence: real): (d: RoutingDecision)
      ensures confidence < confidenceThreshold ==>
        d == RoutingDecision(BucketC, LowConfidenceEscalate, LowConfidence(confidence), HighCost)
      ensures confidence >= confidenceThreshold && intent !in intentToBucket ==>
        d == RoutingDecision(BucketC, UnknownIntentEscalate, UnknownIntent(intent), HighCost)
      ensures confidence >= confidenceThreshold && intent in intentToBucket ==>
        d.bucket == intentToBucket[intent].bucket && d.action == d.bucket && d.costTier == intentToBucket[intent].cost
      ensures d.bucket == BucketC || (intent in intentToBucket && d.bucket == intentToBucket[intent].bucket)
    {
      if confidence < confidenceThreshold then
        RoutingDecision(BucketC, LowConfidenceEscalate, LowConfidence(confidence), HighCost)
      else if intent !in intentToBucket then
        RoutingDecision(BucketC, UnknownIntentEscalate, UnknownIntent(intent), HighCost)
      else
        var info := intentToBucket[intent];
        var reason := if info.bucket == BucketA then DirectLookup
                      else if info.bucket == BucketB then RagSmallLlm
                      else EscalateBigLlm;
        RoutingDecision(info.bucket, info.bucket, reason, info.cost)
    }

    /** The classifier can summarise its answer for this cleaned text. */
    predicate Classifiable(cleaned: string) {
      WellFormed(classify(cleaned))
    }

    /**
      `route_message`: the classifier sees the cleaned text, and the decision
      fields are those of `get_routing_decision` on its label and confidence.
    */
    function RouteMessage(userMessage: string): (r: RouteResult)
      requires Classifiable(CleanText(userMessage))
      ensures r.userMessage == userMessage && r.cleanedText == CleanText(userMessage)
      ensures var p := PredictIntent(classify(CleanText(userMessage)));
        r.predictedIntent == p.predictedIntent && r.confidence == p.confidence && r.top3 == p.top3
      ensures var d := GetRoutingDecision(r.predictedIntent, r.confidence);
        r.bucket == d.bucket && r.action == d.action && r.reason == d.reason && r.costTier == d.costTier
    {
      var cleaned := CleanText(userMessage);
      var prediction := PredictIntent(classify(cleaned));
      var d := GetRoutingDecision(prediction.predictedIntent, prediction.confidence);
      RouteResult(userMessage, cleaned, prediction.predictedIntent, prediction.confidence,
                  d.bucket, d.action, d.reason, d.costTier, prediction.top3)
    }
  }

  /** Once confidence clears the threshold, raising it further changes nothing. */
  lemma ConfidenceAboveThresholdIsIrrelevant(router: IntentRouter, intent: string, c1: real, c2: real)
    requires router.confidenceThreshold <= c1 <= c2
    ensures router.GetRoutingDecision(intent, c2) == router.GetRoutingDecision(intent, c1)
  {
  }

  /**
    For a router built from `config`: an intent listed in some bucket and
    classified confidently is routed to the last bucket that lists it, at that
    bucket's configured cost; one listed nowhere is escalated as unknown.
  */
  lemma ListedIntentRoutesToItsBucket(router: IntentRouter, config: RoutingConfig, intent: string, confidence: real)
    requires router.intentToBucket == IntentMapping(config.intentRouting)
    requires confidence >= router.confidenceThreshold
    ensures LastListing(config.intentRouting, intent).Some? ==>
      var k := LastListing(config.intentRouting, intent).value;
      var d := router.GetRoutingDecision(intent, confidence);
      d.bucket == config.intentRouting[k].0 && d.action == d.bucket
      && d.costTier == config.intentRouting[k].1.cost.GetOr("Unknown")
    ensures LastListing(config.intentRouting, intent).None? ==>
      router.GetRoutingDecision(intent, confidence).action == UnknownIntentEscalate
  {
    IntentMappingLookup(map[], config.intentRouting, intent);
  }
}
