/** Splitting a line of TEAL into words: quoted strings may hold spaces and escaped quotes, base64
    operands may hold double slashes, and an unprotected double slash starts a comment. */
module Tokenizer {

  /** White space that is trimmed from both ends of a line. Only the space separates words. */
  predicate IsWhite(c: char) {
    c == ' ' || c == '\t' || c == '\n' || c == '\r' || c == '\U{000B}' || c == '\U{000C}' || c == '\U{00A0}' ||
    c == '\U{FEFF}' || c == '\U{1680}' || '\U{2000}' <= c <= '\U{200A}' || c == '\U{2028}' || c == '\U{2029}' ||
    c == '\U{202F}' || c == '\U{205F}' || c == '\U{3000}'
  }

  function TrimStart(s: string): string {
    if s != "" && IsWhite(s[0]) then TrimStart(s[1..]) else s
  }

  function TrimEnd(s: string): string {
    if s != "" && IsWhite(s[|s| - 1]) then TrimEnd(s[..|s| - 1]) else s
  }

  function Trim(s: string): string {
    TrimEnd(TrimStart(s))
  }

  function SkipSpaces(s: string): string {
    if s != "" && s[0] == ' ' then SkipSpaces(s[1..]) else s
  }

  lemma {:induction false} SkipSpacesShortens(s: string)
    ensures |SkipSpaces(s)| <= |s|
  {
    if s != "" && s[0] == ' ' {
      SkipSpacesShortens(s[1..]);
    }
  }

  predicate NamesBase64(word: string) {
    word == "base64" || word == "b64"
  }

  /** Whether a quote is inside a string after the character `c`, which follows `prev`. */
  predicate InStringAfter(inString: bool, prev: char, c: char) {
    if c != '"' then inString
    else if inString then prev == '\\'
    else prev == ' '
  }

  /** Whether double slashes are protected as base64 after the character `c` of a word that
      began with `sofar`. */
  predicate InBase64After(inBase64: bool, sofar: string, c: char) {
    if c == '(' then NamesBase64(sofar) || inBase64
    else if c == ')' then false
    else inBase64
  }

  /** The words of `rest`, when `sofar` has been read of the current word and `prev` is the last
      character read. */
  function Words(rest: string, sofar: string, prev: char, inString: bool, inBase64: bool): seq<string>
    decreases |rest|
  {
    if rest == "" then (if sofar != "" then [sofar] else [])
    else if rest[0] != ' ' then
      if rest[0] == '/' && |rest| > 1 && rest[1] == '/' && !inBase64 && !inString then
        (if sofar != "" then [sofar] else [])
      else
        Words(rest[1..], sofar + [rest[0]], rest[0],
              InStringAfter(inString, prev, rest[0]), InBase64After(inBase64, sofar, rest[0]))
    else if inString then
      Words(rest[1..], sofar + " ", ' ', true, inBase64)
    else
      SkipSpacesShortens(rest[1..]);
      [sofar] + Words(SkipSpaces(rest[1..]), "", ' ', false, NamesBase64(sofar))
  }

  /** The words of a line. A line starts as if after a space. */
  function LineWords(line: string): seq<string> {
    Words(Trim(line), "", ' ', false, false)
  }

  method TrimLine(line: string) returns (r: string)
    ensures r == Trim(line)
  {
    var i := 0;
    while i < |line| && IsWhite(line[i])
      invariant 0 <= i <= |line|
      invariant TrimStart(line[i..]) == TrimStart(line)
    {
      assert line[i..][1..] == line[i + 1..];
      i := i + 1;
    }
    var j := |line|;
    assert line[i..j] == line[i..];
    while j > i && IsWhite(line[j - 1])
      invariant i <= j <= |line|
      invariant TrimEnd(line[i..j]) == Trim(line)
    {
      assert line[i..j][..j - i - 1] == line[i..j - 1];
      j := j - 1;
    }
    r := line[i..j];
  }

  /** What the character at `i` means for the word from `start`: whether it begins a comment, and
      the two flags after it. */
  method ReadCharacter(line: string, i: nat, start: nat, inString: bool, inBase64: bool)
    returns (comment: bool, string': bool, base64': bool)
    requires start <= i < |line| && line[i] != ' ' && (inString ==> i > 0)
    ensures comment <==> line[i] == '/' && i + 1 < |line| && line[i + 1] == '/' && !inBase64 && !inString
    ensures string' == InStringAfter(inString, if i == 0 then ' ' else line[i - 1], line[i])
    ensures base64' == InBase64After(inBase64, line[start..i], line[i])
  {
    comment, string', base64' := false, inString, inBase64;
    match line[i] {
      case '"' =>
        if !inString {
          if i == 0 || (i > 0 && line[i - 1] == ' ') {
            string' := true;
          }
        } else if line[i - 1] != '\\' {
          string' := false;
        }
      case '/' =>
        if i < |line| - 1 && line[i + 1] == '/' && !inBase64 && !inString {
          comment := true;
        }
      case '(' =>
        var prefix := line[start..i];
        if NamesBase64(prefix) {
          base64' := true;
        }
      case ')' =>
        if inBase64 {
          base64' := false;
        }
      case _ =>
    }
  }

  method SkipSpacesFrom(line: string, from: nat) returns (i: nat)
    requires from <= |line|
    ensures from <= i <= |line| && line[i..] == SkipSpaces(line[from..])
    ensures from > 0 && line[from - 1] == ' ' ==> i > 0 && line[i - 1] == ' '
  {
    i := from;
    while i < |line| && line[i] == ' '
      invariant from <= i <= |line|
      invariant SkipSpaces(line[i..]) == SkipSpaces(line[from..])
      invariant from > 0 && line[from - 1] == ' ' ==> line[i - 1] == ' '
    {
      assert line[i..][1..] == line[i + 1..];
      i := i + 1;
    }
  }

  /** The words still to come when `i` characters are read and the current word began at `start`. */
  ghost function WordsFrom(line: string, i: nat, start: nat, inString: bool, inBase64: bool): seq<string>
    requires start <= i <= |line|
  {
    Words(line[i..], line[start..i], if i == 0 then ' ' else line[i - 1], inString, inBase64)
  }

  /** Reading a character that is neither a space nor the start of a comment. */
  lemma ReadOne(line: string, i: nat, start: nat, inString: bool, inBase64: bool)
    requires start <= i < |line| && line[i] != ' '
    requires !(line[i] == '/' && i + 1 < |line| && line[i + 1] == '/' && !inBase64 && !inString)
    ensures WordsFrom(line, i, start, inString, inBase64)
            == WordsFrom(line, i + 1, start,
                         InStringAfter(inString, if i == 0 then ' ' else line[i - 1], line[i]),
                         InBase64After(inBase64, line[start..i], line[i]))
  {
    assert line[i..][1..] == line[i + 1..] && line[start..i + 1] == line[start..i] + [line[i]];
  }

  lemma ReadComment(line: string, i: nat, start: nat)
    requires start <= i && i + 1 < |line| && line[i] == '/' && line[i + 1] == '/'
    ensures WordsFrom(line, i, start, false, false) == if start != i then [line[start..i]] else []
  {
    assert line[i..][1] == line[i + 1];
  }

  lemma ReadSpace(line: string, i: nat, start: nat, inString: bool, inBase64: bool)
    requires start <= i < |line| && line[i] == ' '
    ensures inString ==>
              WordsFrom(line, i, start, true, inBase64) == WordsFrom(line, i + 1, start, true, inBase64)
    ensures !inString ==>
              WordsFrom(line, i, start, false, inBase64)
              == [line[start..i]] + Words(SkipSpaces(line[i + 1..]), "", ' ', false, NamesBase64(line[start..i]))
  {
    assert line[i..][1..] == line[i + 1..] && line[start..i + 1] == line[start..i] + [line[i]];
  }

  method WordsFromLine(text: string) returns (words: seq<string>)
    ensures words == LineWords(text)
  {
    var line := TrimLine(text);
    words := [];
    var i, start := 0, 0;
    var inString, inBase64 := false, false;
    assert line[0..] == line && line[0..0] == "";
    while i < |line|
      invariant 0 <= start <= i <= |line|
      invariant inString ==> i > 0
      invariant LineWords(text) == words + WordsFrom(line, i, start, inString, inBase64)
      decreases |line| - i
    {
      if line[i] != ' ' {
        var comment, string', base64' := ReadCharacter(line, i, start, inString, inBase64);
        if comment {
          ReadComment(line, i, start);
          if start != i {
            words := words + [line[start..i]];
          }
          return;
        }
        ReadOne(line, i, start, inString, inBase64);
        inString, inBase64 := string', base64';
        i := i + 1;
        continue;
      }
      ReadSpace(line, i, start, inString, inBase64);
      if inString {
        i := i + 1;
      } else {
        var value := line[start..i];
        ghost var rest := Words(SkipSpaces(line[i + 1..]), "", ' ', false, NamesBase64(value));
        assert words + ([value] + rest) == words + [value] + rest;
        words := words + [value];
        inBase64 := NamesBase64(value);
        i := SkipSpacesFrom(line, i + 1);
        start := i;
        assert line[start..i] == "" && WordsFrom(line, i, start, false, inBase64) == rest;
      }
    }
    assert line[i..] == "";
    if start < |line| {
      words := words + [line[start..i]];
    }
  }
}
