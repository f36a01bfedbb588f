/** Splitting loses nothing: every line is its words, printed with some spacing and a comment. */
module TokenizerCover {
  import opened Tokenizer
  import opened TokenizerRoundTrip

  // ----- every line -----

  lemma {:induction false} SkippedSpaces(s: string) returns (n: nat)
    ensures s == Spaces(n) + SkipSpaces(s)
    ensures SkipSpaces(s) == "" || SkipSpaces(s)[0] != ' '
  {
    if s != "" && s[0] == ' ' {
      var m := SkippedSpaces(s[1..]);
      assert s == " " + s[1..];
      n := m + 1;
    } else {
      n := 0;
    }
  }

  /** After the last word, and spaces, there is nothing or a comment. */
  predicate IsTail(s: string) {
    s == "" || (|s| >= 2 && s[0] == '/' && s[1] == '/')
  }

  /** A space is part of a word only in a string, and a string begins a word. */
  predicate IsWord(w: string) {
    w != "" && (' ' in w ==> w[0] == '"')
  }

  predicate AllWords(words: seq<string>) {
    forall i :: 0 <= i < |words| ==> IsWord(words[i])
  }

  /** What has been read of the current word. */
  predicate IsSofar(sofar: string, prev: char, inString: bool) {
    if sofar == "" then prev == ' ' && !inString
    else
      && prev == sofar[|sofar| - 1] && (prev == ' ' ==> inString)
      && (inString || ' ' in sofar ==> sofar[0] == '"')
  }

  /** `text` is these words with these gaps, then `n` spaces and `rest`. */
  predicate Covers(words: seq<string>, gaps: seq<nat>, n: nat, rest: string, text: string) {
    && AllWords(words) && IsTail(rest)
    && if words == [] then text == Spaces(n) + rest
       else |gaps| == |words| - 1 && text == Print(words, gaps) + (Spaces(n) + rest)
  }

  lemma {:induction false} WordsCover(rest: string, sofar: string, prev: char, inString: bool, inBase64: bool)
    returns (gaps: seq<nat>, n: nat, tail: string)
    requires IsSofar(sofar, prev, inString) && (sofar == "" ==> rest == "" || rest[0] != ' ')
    ensures Covers(Words(rest, sofar, prev, inString, inBase64), gaps, n, tail, sofar + rest)
    decreases |rest|
  {
    if rest == "" || (rest[0] == '/' && |rest| > 1 && rest[1] == '/' && !inBase64 && !inString) {
      gaps, n, tail := [], 0, rest;
      assert Spaces(0) + rest == rest;
    } else if rest[0] != ' ' || inString {
      var flag := if rest[0] == ' ' then inBase64 else InBase64After(inBase64, sofar, rest[0]);
      gaps, n, tail := WordsCover(rest[1..], sofar + [rest[0]], rest[0], InStringAfter(inString, prev, rest[0]), flag);
      assert sofar + rest == sofar + [rest[0]] + rest[1..];
    } else {
      SkipSpacesShortens(rest[1..]);
      var m := SkippedSpaces(rest[1..]);
      var next := SkipSpaces(rest[1..]);
      var words := Words(next, "", ' ', false, NamesBase64(sofar));
      gaps, n, tail := WordsCover(next, "", ' ', false, NamesBase64(sofar));
      gaps, n := GapBefore(sofar, rest, m, next, words, gaps, n, tail);
    }
  }

  lemma {:induction false} NoSpacesAhead(n: nat, tail: string, text: string)
    requires text == Spaces(n) + tail && (text == "" || text[0] != ' ')
    ensures n == 0
  {
  }

  lemma GapBefore(
      w: string, rest: string, m: nat, next: string, words: seq<string>, gaps: seq<nat>, n: nat, tail: string)
    returns (gaps': seq<nat>, n': nat)
    requires IsWord(w) && rest != "" && rest[0] == ' ' && rest[1..] == Spaces(m) + next
    requires next == "" || next[0] != ' '
    requires Covers(words, gaps, n, tail, "" + next)
    ensures Covers([w] + words, gaps', n', tail, w + rest)
  {
    assert rest == Spaces(m + 1) + next;
    assert "" + next == next;
    if words == [] {
      NoSpacesAhead(n, tail, next);
      assert Spaces(0) + tail == tail;
      gaps', n' := [], m + 1;
    } else {
      gaps', n' := [m] + gaps, n;
      assert ([w] + words)[1..] == words && gaps'[1..] == gaps;
      assert w + (Spaces(m + 1) + (Print(words, gaps) + (Spaces(n) + tail)))
             == (w + (Spaces(m + 1) + Print(words, gaps))) + (Spaces(n) + tail);
    }
  }

  lemma {:induction false} TrimmedStart(s: string) returns (lead: string)
    ensures s == lead + TrimStart(s) && AllWhite(lead)
    ensures TrimStart(s) == "" || !IsWhite(TrimStart(s)[0])
  {
    if s != "" && IsWhite(s[0]) {
      var more := TrimmedStart(s[1..]);
      lead := [s[0]] + more;
    } else {
      lead := "";
    }
  }

  lemma {:induction false} TrimmedEnd(s: string) returns (trail: string)
    ensures s == TrimEnd(s) + trail && AllWhite(trail)
    ensures TrimEnd(s) == "" || !IsWhite(TrimEnd(s)[|TrimEnd(s)| - 1])
  {
    if s != "" && IsWhite(s[|s| - 1]) {
      var n := |s| - 1;
      var more := TrimmedEnd(s[..n]);
      trail := more + [s[n]];
      assert s == s[..n] + [s[n]] == TrimEnd(s[..n]) + more + [s[n]];
    } else {
      trail := "";
    }
  }

  lemma {:induction false} StartOfTrim(s: string)
    requires s == "" || !IsWhite(s[0])
    ensures TrimEnd(s) == "" || !IsWhite(TrimEnd(s)[0])
  {
    var trail := TrimmedEnd(s);
    assert TrimEnd(s) != "" ==> TrimEnd(s)[0] == s[0];
  }

  /** Every line whatever is white space, then its words with at least one space between them, then spaces
      and nothing or a comment, then white space. A word holds a space only if it begins with a quote. */
  lemma {:induction false} EveryLineIsItsWords(line: string)
    returns (lead: string, gaps: seq<nat>, n: nat, rest: string, trail: string)
    ensures AllWhite(lead) && AllWhite(trail)
    ensures line == lead + Trim(line) + trail && Covers(LineWords(line), gaps, n, rest, Trim(line))
  {
    lead := TrimmedStart(line);
    trail := TrimmedEnd(TrimStart(line));
    StartOfTrim(TrimStart(line));
    assert "" + Trim(line) == Trim(line);
    gaps, n, rest := WordsCover(Trim(line), "", ' ', false, false);
  }

  // ----- protection, read off the words -----

  /** `w` begins with `open`, and no parenthesis closes it before `k`. */
  predicate OpenAt(w: string, k: nat, open: string)
    requires k <= |w|
  {
    |open| <= k && w[..|open|] == open && ')' !in w[|open|..k]
  }

  /** Double slashes are protected at `k` exactly in a protected word before its first closing parenthesis,
      and in a word that begins with `b64(` or `base64(` before the first one after that. */
  lemma {:induction false} ProtectionIff(w: string, k: nat, b: bool)
    requires k <= |w|
    ensures Base64At(w, k, b) <==> (b && ')' !in w[..k]) || OpenAt(w, k, "b64(") || OpenAt(w, k, "base64(")
    decreases k
  {
    if k > 0 {
      ProtectionIff(w, k - 1, b);
      var c := w[k - 1];
      assert w[..k] == w[..k - 1] + [c];
      OpenStep(w, k, "b64");
      OpenStep(w, k, "base64");
    }
  }

  lemma OpenStep(w: string, k: nat, name: string)
    requires 0 < k <= |w| && '(' !in name && ')' !in name
    ensures OpenAt(w, k, name + "(") <==>
            (OpenAt(w, k - 1, name + "(") && w[k - 1] != ')') || (w[..k - 1] == name && w[k - 1] == '(')
  {
    var open := name + "(";
    if |open| <= k - 1 {
      assert w[|open|..k] == w[|open|..k - 1] + [w[k - 1]];
    } else if |open| == k {
      assert w[..k] == w[..k - 1] + [w[k - 1]];
      assert open[..k - 1] == name && open[k - 1] == '(';
    }
  }

  /** After a first word, a second one is read whole exactly if it is well-formed, with double slashes
      protected after `base64` and `b64` and after no other word. */
  lemma SecondWordIff(v: string, w: string)
    requires Bare(v, false) && Spaceless(w) && !IsWhite(v[0]) && !IsWhite(w[|w| - 1])
    ensures LineWords(v + " " + w) == [v, w] <==> Bare(w, v == "base64" || v == "b64")
  {
    var second := Words(w, "", ' ', false, NamesBase64(v));
    FirstThenSecond(v, w);
    BareIff(w, NamesBase64(v));
    OneAfter(v, second, w);
  }

  lemma OneAfter(v: string, words: seq<string>, w: string)
    ensures [v] + words == [v, w] <==> words == [w]
  {
    assert ([v] + words)[1..] == words && [v, w][1..] == [w];
    if words == [w] {
      assert [v] + words == [v, w];
    }
  }

  lemma TrimmedAlready(core: string)
    requires core != "" && !IsWhite(core[0]) && !IsWhite(core[|core| - 1])
    ensures Trim(core) == core
  {
    assert "" + core + "" == core;
    TokenizerRoundTrip.TrimLine("", core, "");
    assert TrimEnd("") == "" && core + "" == core;
  }

  lemma OneSpace(v: string, w: string)
    ensures v + " " + w == v + (Spaces(1) + w)
  {
    assert Spaces(0) == "" && Spaces(1) == " ";
    assert v + " " + w == v + (" " + w);
  }

  lemma {:induction false} FirstThenSecond(v: string, w: string)
    requires Bare(v, false) && Spaceless(w) && !IsWhite(v[0]) && !IsWhite(w[|w| - 1])
    ensures LineWords(v + " " + w) == [v] + Words(w, "", ' ', false, NamesBase64(v))
  {
    TrimmedAlready(v + " " + w);
    OneSpace(v, w);
    ReadFirst(v, false, 0, w);
  }

  // ----- a string that is never closed -----

  predicate Open(w: string) {
    w != "" && w[0] == '"' && forall k :: 0 < k < |w| && w[k] == '"' ==> w[k - 1] == '\\'
  }

  lemma {:induction false} ReadOpen(w: string, k: nat, b: bool)
    requires Open(w) && 0 < k <= |w|
    ensures Words(w[k..], w[..k], w[k - 1], true, b) == [w]
    decreases |w| - k
  {
    if k == |w| {
      assert w[k..] == "" && w[..k] == w;
    } else {
      assert w[k..][0] == w[k] && w[k..][1..] == w[k + 1..] && w[..k] + [w[k]] == w[..k + 1];
      ReadOpen(w, k + 1, if w[k] == ' ' then b else InBase64After(b, w[..k], w[k]));
    }
  }

  /** It takes the rest of the line, spaces, slashes and all. */
  lemma {:induction false} UnclosedTakesAll(w: string)
    requires Open(w) && !IsWhite(w[|w| - 1])
    ensures LineWords(w) == [w]
  {
    TrimmedAlready(w);
    assert w[..0] == "" && w[0..] == w && "" + [w[0]] == w[..1];
    ReadOpen(w, 1, false);
  }

  // ----- white space -----

  /** White space is what ECMAScript takes for it, line ends included. */
  lemma WhiteIff(c: char)
    ensures IsWhite(c) <==>
            c in "\t\U{000B}\U{000C} \U{00A0}\U{FEFF}\n\r\U{2028}\U{2029}\U{1680}\U{202F}\U{205F}\U{3000}"
                 + "\U{2000}\U{2001}\U{2002}\U{2003}\U{2004}\U{2005}\U{2006}\U{2007}\U{2008}\U{2009}\U{200A}"
  {
    var edges := "\t\U{000B}\U{000C} \U{00A0}\U{FEFF}\n\r\U{2028}\U{2029}\U{1680}\U{202F}\U{205F}\U{3000}";
    var spaces := "\U{2000}\U{2001}\U{2002}\U{2003}\U{2004}\U{2005}\U{2006}\U{2007}\U{2008}\U{2009}\U{200A}";
    if '\U{2000}' <= c <= '\U{200A}' {
      assert spaces[(c - '\U{2000}') as int] == c;
    }
    assert c in edges + spaces <==> c in edges || c in spaces;
  }
}
