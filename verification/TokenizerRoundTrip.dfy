/** Printing words with any spacing and comment and splitting the line again gives the words back. */
module TokenizerRoundTrip {
  import opened Tokenizer

  // ----- which words survive -----

  /** Whether double slashes are protected after the first `k` characters of `w`, a word that
      starts with protection `b`. */
  predicate Base64At(w: string, k: nat, b: bool)
    requires k <= |w|
  {
    if k == 0 then b else InBase64After(Base64At(w, k - 1, b), w[..k - 1], w[k - 1])
  }

  /** A double slash at `k` that the tokenizer takes for a comment. */
  predicate CommentAt(w: string, k: nat, b: bool)
    requires k <= |w|
  {
    k + 1 < |w| && w[k] == '/' && w[k + 1] == '/' && !Base64At(w, k, b)
  }

  predicate Spaceless(w: string) {
    w != "" && ' ' !in w && w[0] != '"'
  }

  /** A word without quotes around it: no space, and every double slash protected. */
  predicate Bare(w: string, b: bool) {
    Spaceless(w) && forall k :: 0 <= k < |w| ==> !CommentAt(w, k, b)
  }

  /** A string literal: quotes inside it are escaped, its last quote is not. */
  predicate Quoted(w: string) {
    && |w| >= 2 && w[0] == '"' && w[|w| - 1] == '"' && w[|w| - 2] != '\\'
    && forall k :: 0 < k < |w| - 1 && w[k] == '"' ==> w[k - 1] == '\\'
  }

  predicate WellFormed(w: string, b: bool) {
    Bare(w, b) || Quoted(w)
  }

  /** Each word is judged with the protection the word before it gives. */
  predicate AllWellFormed(words: seq<string>, b: bool) {
    words == [] || (WellFormed(words[0], b) && AllWellFormed(words[1..], NamesBase64(words[0])))
  }

  // ----- reading one word -----

  predicate Slash(rest: string) {
    rest != "" && rest[0] == '/'
  }

  lemma {:induction false} ReadBare(w: string, k: nat, b: bool, rest: string)
    requires Bare(w, b) && k <= |w| && (Slash(rest) ==> w[|w| - 1] != '/')
    ensures Words(w[k..] + rest, w[..k], if k == 0 then ' ' else w[k - 1], false, Base64At(w, k, b))
            == Words(rest, w, w[|w| - 1], false, Base64At(w, |w|, b))
    decreases |w| - k
  {
    if k == |w| {
      assert w[k..] + rest == rest && w[..k] == w;
    } else {
      var text := w[k..] + rest;
      assert text[0] == w[k] && text[1..] == w[k + 1..] + rest && w[..k] + [w[k]] == w[..k + 1];
      assert !CommentAt(w, k, b);
      assert |text| > 1 ==> text[1] == if k + 1 < |w| then w[k + 1] else rest[0];
      ReadBare(w, k + 1, b, rest);
    }
  }

  lemma {:induction false} ReadQuotedFrom(w: string, k: nat, b: bool, rest: string)
    requires Quoted(w) && 0 < k < |w|
    ensures Words(w[k..] + rest, w[..k], w[k - 1], true, Base64At(w, k, b))
            == Words(rest, w, '"', false, Base64At(w, |w|, b))
    decreases |w| - k
  {
    var text := w[k..] + rest;
    assert text[0] == w[k] && text[1..] == w[k + 1..] + rest && w[..k] + [w[k]] == w[..k + 1];
    if k + 1 == |w| {
      assert w[k + 1..] + rest == rest && w[..k + 1] == w;
    } else {
      ReadQuotedFrom(w, k + 1, b, rest);
    }
  }

  lemma {:induction false} ReadWord(w: string, b: bool, rest: string)
    requires WellFormed(w, b) && (Slash(rest) ==> w[|w| - 1] != '/')
    ensures Words(w + rest, "", ' ', false, b) == Words(rest, w, w[|w| - 1], false, Base64At(w, |w|, b))
  {
    if Quoted(w) {
      var text := w + rest;
      assert text[1..] == w[1..] + rest && "" + [text[0]] == w[..1];
      assert Base64At(w, 1, b) == b;
      ReadQuotedFrom(w, 1, b, rest);
    } else {
      assert w[0..] + rest == w + rest && w[..0] == "";
      ReadBare(w, 0, b, rest);
    }
  }

  /** Among words without spaces and opening quote, exactly the bare ones are read whole. */
  lemma {:induction false} BareIff(w: string, b: bool)
    requires Spaceless(w)
    ensures Words(w, "", ' ', false, b) == [w] <==> Bare(w, b)
  {
    assert w[0..] == w && w[..0] == "";
    if Bare(w, b) {
      assert w + "" == w;
      ReadWord(w, b, "");
    } else {
      var j :| 0 <= j < |w| && CommentAt(w, j, b);
      CutShort(w, 0, j, b);
    }
  }

  lemma {:induction false} CutShort(w: string, k: nat, j: nat, b: bool)
    requires Spaceless(w) && k <= j < |w| && CommentAt(w, j, b)
    ensures Words(w[k..], w[..k], if k == 0 then ' ' else w[k - 1], false, Base64At(w, k, b)) != [w]
    decreases |w| - k
  {
    var text := w[k..];
    assert text[0] == w[k] && text[1..] == w[k + 1..] && w[..k] + [w[k]] == w[..k + 1];
    assert |text| > 1 ==> text[1] == w[k + 1];
    if CommentAt(w, k, b) {
      assert |w[..k]| < |w|;
    } else {
      CutShort(w, k + 1, j, b);
    }
  }

  // ----- kinds of words -----

  /** A word without double slashes is bare wherever it stands. */
  lemma PlainIsBare(w: string, b: bool)
    requires Spaceless(w) && forall k :: 0 <= k < |w| - 1 ==> w[k] != '/' || w[k + 1] != '/'
    ensures Bare(w, b)
  {
  }

  lemma {:induction false} ProtectionLasts(w: string, from: nat, k: nat, b: bool)
    requires from <= k <= |w| && Base64At(w, from, b) && ')' !in w[from..k]
    ensures Base64At(w, k, b)
    decreases k
  {
    if from < k {
      assert w[from..k - 1] <= w[from..k] && w[k - 1] == w[from..k][k - 1 - from];
      ProtectionLasts(w, from, k - 1, b);
    }
  }

  /** An operand after the word `base64` or `b64` may hold double slashes. */
  lemma Base64OperandIsBare(w: string)
    requires Spaceless(w) && ')' !in w
    ensures Bare(w, true)
  {
    forall k | 0 <= k < |w|
      ensures Base64At(w, k, true)
    {
      ProtectionLasts(w, 0, k, true);
    }
  }

  /** So may what stands between the parentheses of `base64(...)` and `b64(...)`. */
  lemma InlineBase64IsBare(name: string, inner: string, b: bool)
    requires NamesBase64(name) && ' ' !in inner && ')' !in inner
    ensures Bare(name + "(" + inner + ")", b)
  {
    var w := name + "(" + inner + ")";
    var n := |name|;
    assert w[..n] == name && w[n] == '(' && w[n + 1..|w| - 1] == inner;
    assert Base64At(w, n + 1, b);
    forall k | 0 <= k < |w|
      ensures !CommentAt(w, k, b)
    {
      if n < k {
        assert w[n + 1..k] <= inner || k == |w| - 1;
        ProtectionLasts(w, n + 1, k, b);
      }
    }
  }

  // ----- printing -----

  function Spaces(n: nat): string {
    if n == 0 then "" else " " + Spaces(n - 1)
  }

  /** The words with `gaps[i] + 1` spaces after word `i`, but for the last. */
  function Print(words: seq<string>, gaps: seq<nat>): string
    requires words != [] && |gaps| == |words| - 1
  {
    if |words| == 1 then words[0] else words[0] + (Spaces(gaps[0] + 1) + Print(words[1..], gaps[1..]))
  }

  datatype Ending = Nothing | Comment(gap: nat, text: string)

  function EndingText(e: Ending): string {
    match e
    case Nothing => ""
    case Comment(gap, text) => Spaces(gap) + ("//" + text)
  }

  /** A comment may follow the last word directly unless the word ends in a slash or is still
      protected, and after a space unless the word is `base64` or `b64` itself. */
  predicate MayEnd(w: string, b: bool, e: Ending)
    requires w != ""
  {
    match e
    case Nothing => true
    case Comment(gap, _) => if gap == 0 then w[|w| - 1] != '/' && !Base64At(w, |w|, b) else !NamesBase64(w)
  }

  predicate LastMayEnd(words: seq<string>, b: bool, e: Ending)
    requires words != [] && AllWellFormed(words, b)
  {
    if |words| == 1 then MayEnd(words[0], b, e) else LastMayEnd(words[1..], NamesBase64(words[0]), e)
  }

  lemma {:induction false} SkipSpacesStops(n: nat, s: string)
    requires s == "" || s[0] != ' '
    ensures SkipSpaces(Spaces(n) + s) == s
  {
    if n == 0 {
      assert Spaces(n) + s == s;
    } else {
      var line := Spaces(n) + s;
      assert line[0] == ' ';
      assert line[1..] == Spaces(n - 1) + s;
      SkipSpacesStops(n - 1, s);
      assert SkipSpaces(line) == SkipSpaces(line[1..]);
    }
  }

  lemma ReadGap(w: string, prev: char, flag: bool, n: nat, s: string)
    requires s == "" || s[0] != ' '
    ensures Words(Spaces(n + 1) + s, w, prev, false, flag) == [w] + Words(s, "", ' ', false, NamesBase64(w))
  {
    assert (Spaces(n + 1) + s)[0] == ' ' && (Spaces(n + 1) + s)[1..] == Spaces(n) + s;
    SkipSpacesStops(n, s);
  }

  lemma {:induction false} PrintStart(words: seq<string>, gaps: seq<nat>)
    requires words != [] && |gaps| == |words| - 1 && words[0] != ""
    ensures Print(words, gaps) != "" && Print(words, gaps)[0] == words[0][0]
  {
  }

  lemma {:induction false} ReadEnding(w: string, b: bool, e: Ending)
    requires WellFormed(w, b) && MayEnd(w, b, e)
    ensures Words(w + EndingText(e), "", ' ', false, b) == [w]
  {
    ReadWord(w, b, EndingText(e));
    match e
    case Nothing =>
    case Comment(gap, text) =>
      if gap == 0 {
        assert Spaces(0) + ("//" + text) == "//" + text;
      } else {
        ReadGap(w, w[|w| - 1], Base64At(w, |w|, b), gap - 1, "//" + text);
      }
  }

  /** A word that does not end the line is read whole, and the gap after it skipped. */
  lemma ReadFirst(w: string, b: bool, n: nat, next: string)
    requires WellFormed(w, b) && (next == "" || next[0] != ' ')
    ensures Words(w + (Spaces(n + 1) + next), "", ' ', false, b) == [w] + Words(next, "", ' ', false, NamesBase64(w))
  {
    var rest := Spaces(n + 1) + next;
    assert rest[0] == ' ';
    ReadWord(w, b, rest);
    ReadGap(w, w[|w| - 1], Base64At(w, |w|, b), n, next);
  }

  /** The line from the second word on. */
  lemma {:induction false} PrintTail(words: seq<string>, gaps: seq<nat>, ending: string)
    requires |words| > 1 && |gaps| == |words| - 1 && words[1] != "" && words[1][0] != ' '
    ensures var next := Print(words[1..], gaps[1..]) + ending;
            && next[0] != ' '
            && Print(words, gaps) + ending == words[0] + (Spaces(gaps[0] + 1) + next)
  {
    PrintStart(words[1..], gaps[1..]);
  }

  lemma {:induction false} ReadPrinted(words: seq<string>, gaps: seq<nat>, e: Ending, b: bool)
    requires words != [] && |gaps| == |words| - 1
    requires AllWellFormed(words, b) && LastMayEnd(words, b, e)
    ensures Words(Print(words, gaps) + EndingText(e), "", ' ', false, b) == words
    decreases |words|
  {
    var w := words[0];
    if |words| == 1 {
      ReadEnding(w, b, e);
    } else {
      var tail := words[1..];
      assert WellFormed(tail[0], NamesBase64(w));
      PrintTail(words, gaps, EndingText(e));
      ReadFirst(w, b, gaps[0], Print(tail, gaps[1..]) + EndingText(e));
      ReadPrinted(tail, gaps[1..], e, NamesBase64(w));
      assert [w] + tail == words;
    }
  }

  // ----- whole lines -----

  predicate AllWhite(s: string) {
    forall i :: 0 <= i < |s| ==> IsWhite(s[i])
  }

  lemma {:induction false} TrimStartDrops(lead: string, s: string)
    requires AllWhite(lead) && (s == "" || !IsWhite(s[0]))
    ensures TrimStart(lead + s) == s
  {
    if lead == "" {
      assert lead + s == s;
    } else {
      assert (lead + s)[1..] == lead[1..] + s;
      TrimStartDrops(lead[1..], s);
    }
  }

  /** Trimming the end stops at a character that is not white. */
  lemma {:induction false} TrimEndStops(s: string, t: string)
    requires s != "" && !IsWhite(s[|s| - 1])
    ensures TrimEnd(s + t) == s + TrimEnd(t)
    decreases |t|
  {
    if t == "" {
      assert s + t == s;
    } else if IsWhite(t[|t| - 1]) {
      assert (s + t)[..|s + t| - 1] == s + t[..|t| - 1];
      TrimEndStops(s, t[..|t| - 1]);
    }
  }

  lemma {:induction false} TrimEndAll(t: string)
    requires AllWhite(t)
    ensures TrimEnd(t) == ""
  {
    if t != "" {
      TrimEndAll(t[..|t| - 1]);
    }
  }

  lemma {:induction false} PrintEnd(words: seq<string>, gaps: seq<nat>)
    requires words != [] && |gaps| == |words| - 1 && words[|words| - 1] != ""
    ensures var last := words[|words| - 1];
            Print(words, gaps) != "" && Print(words, gaps)[|Print(words, gaps)| - 1] == last[|last| - 1]
    decreases |words|
  {
    if |words| > 1 {
      PrintEnd(words[1..], gaps[1..]);
    }
  }

  lemma {:induction false} SameEnd(words: seq<string>, b: bool, e: Ending, e': Ending)
    requires words != [] && AllWellFormed(words, b) && LastMayEnd(words, b, e)
    requires e.Comment? && e'.Comment? && e.gap == e'.gap
    ensures LastMayEnd(words, b, e')
    decreases |words|
  {
    if |words| > 1 {
      SameEnd(words[1..], NamesBase64(words[0]), e, e');
    }
  }

  lemma {:induction false} TrimLine(lead: string, core: string, tail: string)
    requires AllWhite(lead) && core != "" && !IsWhite(core[0]) && !IsWhite(core[|core| - 1])
    ensures Trim(lead + core + tail) == core + TrimEnd(tail)
  {
    assert lead + core + tail == lead + (core + tail);
    TrimStartDrops(lead, core + tail);
    TrimEndStops(core, tail);
  }

  lemma RoundTripPlain(words: seq<string>, gaps: seq<nat>, lead: string, trail: string)
    requires words != [] && |gaps| == |words| - 1 && words[|words| - 1] != ""
    requires AllWellFormed(words, false) && LastMayEnd(words, false, Nothing)
    requires AllWhite(lead) && AllWhite(trail) && !IsWhite(words[0][0])
    requires var last := words[|words| - 1]; !IsWhite(last[|last| - 1])
    ensures LineWords(lead + Print(words, gaps) + trail) == words
  {
    PrintStart(words, gaps);
    PrintEnd(words, gaps);
    TrimLine(lead, Print(words, gaps), trail);
    TrimEndAll(trail);
    ReadPrinted(words, gaps, Nothing, false);
  }

  lemma Regroup(lead: string, words: string, gap: string, text: string, trail: string)
    ensures lead + (words + (gap + ("//" + text))) + trail == lead + (words + gap + "//") + (text + trail)
    ensures words + (gap + ("//" + text)) == (words + gap + "//") + text
  {
  }

  lemma {:induction false} RoundTripComment(words: seq<string>, gaps: seq<nat>, e: Ending, lead: string, trail: string)
    requires words != [] && |gaps| == |words| - 1 && e.Comment?
    requires AllWellFormed(words, false) && LastMayEnd(words, false, e)
    requires AllWhite(lead) && !IsWhite(words[0][0])
    ensures LineWords(lead + (Print(words, gaps) + EndingText(e)) + trail) == words
  {
    PrintStart(words, gaps);
    var core := Print(words, gaps) + Spaces(e.gap) + "//";
    var kept := Comment(e.gap, TrimEnd(e.text + trail));
    Regroup(lead, Print(words, gaps), Spaces(e.gap), e.text, trail);
    TrimLine(lead, core, e.text + trail);
    Regroup("", Print(words, gaps), Spaces(e.gap), kept.text, "");
    SameEnd(words, false, e, kept);
    ReadPrinted(words, gaps, kept, false);
  }

  /** Splitting a printed line gives back its words, for any spacing before, between and after
      them and any comment. */
  lemma RoundTrip(words: seq<string>, gaps: seq<nat>, e: Ending, lead: string, trail: string)
    requires words != [] && |gaps| == |words| - 1 && words[|words| - 1] != ""
    requires AllWellFormed(words, false) && LastMayEnd(words, false, e)
    requires AllWhite(lead) && AllWhite(trail) && !IsWhite(words[0][0])
    requires var last := words[|words| - 1]; e.Nothing? ==> !IsWhite(last[|last| - 1])
    ensures LineWords(lead + (Print(words, gaps) + EndingText(e)) + trail) == words
  {
    if e.Nothing? {
      assert Print(words, gaps) + EndingText(e) == Print(words, gaps);
      RoundTripPlain(words, gaps, lead, trail);
    } else {
      RoundTripComment(words, gaps, e, lead, trail);
    }
  }

  /** A line of white space, or of a comment alone, has no words. */
  lemma NoWords(lead: string, text: string)
    requires AllWhite(lead)
    ensures LineWords(lead) == [] && LineWords(lead + "//" + text) == []
  {
    assert lead + "" == lead;
    TrimStartDrops(lead, "");
    assert lead + "//" + text == lead + ("//" + text);
    TrimStartDrops(lead, "//" + text);
    TrimEndStops("//", text);
  }
}
